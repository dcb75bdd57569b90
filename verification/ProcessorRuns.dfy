/**
  The processor object, its store and its checker, proved against the fold: whatever the page size,
  however often events are submitted again and processors are started afresh on the same store, the
  store holds one left fold of the reducer over a prefix of the log.
 */
module ProcessorRuns {
  import opened Base
  import opened Events
  import opened Processor

  // ----- The fold, step by step -----

  lemma FoldedNext(k: Kernel, events: seq<Stored>, n: nat)
    requires n < |events| && Folded(k, events[..n]).Some?
    ensures Folded(k, events[..n + 1]) == Advance(k, Folded(k, events[..n]).value, events[n])
  {
    FoldLast((v: View, e: Stored) => Advance(k, v, e), EMPTY_VIEW, events, n);
    hide Advance;
  }

  lemma FoldedRefused(k: Kernel, events: seq<Stored>, n: nat)
    requires n < |events| && Folded(k, events[..n]).Some? && Advance(k, Folded(k, events[..n]).value, events[n]).None?
    ensures Folded(k, events).None?
  {
    FoldRefused((v: View, e: Stored) => Advance(k, v, e), EMPTY_VIEW, events, n);
    hide Advance;
  }

  predicate CheckpointSound(k: Kernel, a: string, c: Checkpoint) {
    CheckpointSealed(k, c) && c.aggregateId == a && c.version > 0
  }

  predicate AggregatesSound(k: Kernel, v: View) {
    forall a :: a in v.aggregates ==> CheckpointSound(k, a, v.aggregates[a])
  }

  /** The store has reached position `n` of the log: it holds the fold of the first `n` events. */
  ghost predicate Reached(k: Kernel, v: View, events: seq<Stored>, n: nat) {
    && n <= |events| && Folded(k, events[..n]) == Some(v)
    && CursorAt(k, Current(k, v), events, n) && AggregatesSound(k, v)
  }

  lemma StartReached(k: Kernel, events: seq<Stored>)
    ensures Reached(k, EMPTY_VIEW, events, 0)
  {
    assert events[..0] == [];
  }

  lemma ProducedSound(k: Kernel, v: View, e: Stored)
    requires Produce(k, v, e).Some?
    ensures CheckpointSound(k, Produce(k, v, e).value.aggregate.aggregateId, Produce(k, v, e).value.aggregate)
  {
    hide Producible, Outputs, NextCursor, Prior, Recognized, AggregatesSound;
  }

  lemma NextCursorAt(k: Kernel, c: Cursor, e: Stored, aggregate: Checkpoint, os: seq<Output>, events: seq<Stored>, n: nat)
    requires n < |events| && events[n] == e && e.position == n + 1
    ensures CursorAt(k, NextCursor(k, c, e, aggregate, os), events, n + 1)
  {
    hide Semantics;
  }

  /** A step of the fold takes a store that has reached `n` to `n + 1`. */
  lemma ReachedNext(k: Kernel, v: View, events: seq<Stored>, n: nat)
    requires Chain(k.sha, events) && Reached(k, v, events, n) && n < |events|
    requires Advance(k, v, events[n]).Some?
    ensures Reached(k, Advance(k, v, events[n]).value, events, n + 1)
  {
    var e := events[n];
    FoldedNext(k, events, n);
    ChainAt(k.sha, events, n);
    var c := Produce(k, v, e).value;
    var t, aggregate := ProducedFrom(k, v, e);
    ProducedSound(k, v, e);
    NextCursorAt(k, Current(k, v), e, c.aggregate, c.outputs, events, n);
    hide Chain, Folded, Produce, CursorAt, CheckpointSound, NextCursor, KeysFree, AllFit, UseKeys, Verified, Outputs, Producible;
  }

  /** Once the reducer's parser changes a state the store holds, no event of that aggregate is processed any more. */
  lemma ChangedStateStops(k: Kernel, v: View, events: seq<Stored>, n: nat, e: Stored, a: string)
    requires Injective(k.sha) && Reached(k, v, events, n) && k.reducer.route(e) == Some(a) && a in v.aggregates
    requires k.reducer.parse(v.aggregates[a].state) != Some(v.aggregates[a].state)
    ensures Advance(k, v, e).None?
  {
    assert CheckpointSound(k, a, v.aggregates[a]);
    RecognizedExactly(k, v.aggregates[a]);
    hide Recognized, Folded, CursorAt, CheckpointSealed, Producible, NextCursor, Outputs, Injective;
  }

  /** A log that has only grown leaves the store where it was. */
  lemma ReachedOnLonger(k: Kernel, v: View, events: seq<Stored>, longer: seq<Stored>, n: nat)
    requires Reached(k, v, events, n) && events <= longer
    ensures Reached(k, v, longer, n)
  {
    assert longer[..n] == events[..n];
    assert HashBefore(longer, n) == HashBefore(events, n);
    hide Folded, AggregatesSound;
  }

  // ----- The checker, as the loop it is -----

  lemma CountNext(os: seq<Output>, i: nat, c: Category)
    requires i < |os|
    ensures CountOf(os[..i + 1], c) == CountOf(os[..i], c) + (if os[i].category == c then 1 else 0)
  {
    assert os[..i + 1][..i] == os[..i];
  }

  predicate SeenIds(os: seq<Output>, i: nat, ids: set<Id>)
    requires i <= |os|
  {
    && (forall j :: 0 <= j < i ==> os[j].outputId in ids)
    && (forall x :: x in ids ==> exists j :: 0 <= j < i && os[j].outputId == x)
  }

  predicate SeenKeys(k: Kernel, os: seq<Output>, i: nat, keys: set<Id>)
    requires i <= |os|
  {
    && (forall j :: 0 <= j < i && Identity(k, os[j]).Some? ==> Identity(k, os[j]).value in keys)
    && (forall x :: x in keys ==> exists j :: 0 <= j < i && Identity(k, os[j]) == Some(x))
  }

  lemma IdsNext(os: seq<Output>, i: nat, ids: set<Id>)
    requires i < |os| && SeenIds(os, i, ids)
    ensures SeenIds(os, i + 1, ids + {os[i].outputId})
    ensures os[i].outputId !in ids <==> forall j :: 0 <= j < i ==> os[j].outputId != os[i].outputId
  {
    forall x | x in ids + {os[i].outputId} ensures exists j :: 0 <= j < i + 1 && os[j].outputId == x {
      if x in ids { var j :| 0 <= j < i && os[j].outputId == x; }
    }
  }

  lemma KeysNext(k: Kernel, os: seq<Output>, i: nat, keys: set<Id>)
    requires i < |os| && SeenKeys(k, os, i, keys)
    ensures var id := Identity(k, os[i]);
            && SeenKeys(k, os, i + 1, if id.Some? then keys + {id.value} else keys)
            && (id.Some? ==> (id.value !in keys <==> forall j :: 0 <= j < i ==> Identity(k, os[j]) != id))
  {
    hide Identity;
    var id := Identity(k, os[i]);
    var next := if id.Some? then keys + {id.value} else keys;
    forall x | x in next ensures exists j :: 0 <= j < i + 1 && Identity(k, os[j]) == Some(x) {
      if x in keys { var j :| 0 <= j < i && Identity(k, os[j]) == Some(x); }
    }
  }

  const NO_ORDINALS: map<Category, nat> := map[Decision := 0, Job := 0, Outbox := 0]

  /** The loop over a commit's outputs. */
  method VerifyOutputs(k: Kernel, e: Stored, aggregate: string, os: seq<Output>) returns (ok: bool)
    ensures ok == OutputsChecked(k, e, aggregate, os)
  {
    hide OutputSealed, BodyValid, Identity, SeenIds, SeenKeys, OutputChecked;
    if |os| > MAX_OUTPUTS { return false; }
    var nextOrdinals := NO_ORDINALS;
    var outputIds: set<Id> := {};
    var dedupe: set<Id> := {};
    var previousRank: int := -1;
    NothingSeen(k, os);
    for i := 0 to |os|
      invariant forall c: Category :: c in nextOrdinals && nextOrdinals[c] == CountOf(os[..i], c)
      invariant SeenIds(os, i, outputIds) && SeenKeys(k, os, i, dedupe)
      invariant previousRank == if i == 0 then -1 else Rank(os[i - 1].category)
      invariant forall j :: 0 <= j < i ==> OutputChecked(k, e, aggregate, os, j)
    {
      var o := os[i];
      var id := Identity(k, o);
      IdsNext(os, i, outputIds);
      KeysNext(k, os, i, dedupe);
      CheckedIs(k, e, aggregate, os, i, outputIds, dedupe);
      forall c: Category ensures CountOf(os[..i + 1], c) == CountOf(os[..i], c) + (if os[i].category == c then 1 else 0) {
        CountNext(os, i, c);
      }
      if Rank(o.category) < previousRank { assert !OutputChecked(k, e, aggregate, os, i); return false; }
      previousRank := Rank(o.category);
      if o.outputId in outputIds { assert !OutputChecked(k, e, aggregate, os, i); return false; }
      outputIds := outputIds + {o.outputId};
      if o.ordinal != nextOrdinals[o.category] { assert !OutputChecked(k, e, aggregate, os, i); return false; }
      nextOrdinals := nextOrdinals[o.category := nextOrdinals[o.category] + 1];
      if !OutputSealed(k, e, aggregate, o) || !BodyValid(k, o) {
        assert !OutputChecked(k, e, aggregate, os, i);
        return false;
      }
      if id.Some? {
        if id.value in dedupe { assert !OutputChecked(k, e, aggregate, os, i); return false; }
        dedupe := dedupe + {id.value};
      }
    }
    ok := true;
  }

  lemma NothingSeen(k: Kernel, os: seq<Output>)
    ensures SeenIds(os, 0, {}) && SeenKeys(k, os, 0, {})
    ensures forall c: Category :: c in NO_ORDINALS && NO_ORDINALS[c] == CountOf(os[..0], c)
  {
    assert os[..0] == [];
    forall c: Category ensures c in NO_ORDINALS && NO_ORDINALS[c] == CountOf(os[..0], c) {
      match c
      case Decision => assert NO_ORDINALS[Decision] == 0;
      case Job => assert NO_ORDINALS[Job] == 0;
      case Outbox => assert NO_ORDINALS[Outbox] == 0;
    }
  }

  /** One output's check, in terms of what the loop remembers. */
  lemma CheckedIs(k: Kernel, e: Stored, aggregate: string, os: seq<Output>, i: nat, ids: set<Id>, keys: set<Id>)
    requires i < |os|
    requires os[i].outputId !in ids <==> forall j :: 0 <= j < i ==> os[j].outputId != os[i].outputId
    requires var id := Identity(k, os[i]);
             id.Some? ==> (id.value !in keys <==> forall j :: 0 <= j < i ==> Identity(k, os[j]) != id)
    ensures OutputChecked(k, e, aggregate, os, i) <==>
              && (i > 0 ==> Rank(os[i - 1].category) <= Rank(os[i].category))
              && os[i].outputId !in ids && os[i].ordinal == CountOf(os[..i], os[i].category)
              && OutputSealed(k, e, aggregate, os[i]) && BodyValid(k, os[i])
              && (Identity(k, os[i]).Some? ==> Identity(k, os[i]).value !in keys)
  {
    hide OutputSealed, BodyValid, Identity;
  }

  // ----- Materializing, as the loops it is -----

  predicate Collected(k: Kernel, os: seq<Output>, keys: set<Id>) {
    DistinctKeys(k, os) && SeenKeys(k, os, |os|, keys)
  }

  lemma CollectedNext(k: Kernel, os: seq<Output>, keys: set<Id>, o: Output)
    requires Collected(k, os, keys)
    ensures var id := Identity(k, o);
            && (DistinctKeys(k, os + [o]) <==> (id.Some? ==> id.value !in keys))
            && (DistinctKeys(k, os + [o]) ==> Collected(k, os + [o], if id.Some? then keys + {id.value} else keys))
  {
    hide Identity;
    var all, id := os + [o], Identity(k, o);
    if id.Some? && id.value in keys {
      var j :| 0 <= j < |os| && Identity(k, os[j]) == Some(id.value);
      assert all[j] == os[j] && all[|os|] == o;
      assert Identity(k, all[j]) == Identity(k, all[|os|]);
    }
    var next := if id.Some? then keys + {id.value} else keys;
    forall x | x in next ensures exists j :: 0 <= j < |all| && Identity(k, all[j]) == Some(x) {
      if x in keys {
        var j :| 0 <= j < |os| && Identity(k, os[j]) == Some(x);
        assert all[j] == os[j];
      } else {
        assert all[|os|] == o;
      }
    }
  }

  /** A repeated key among the first outputs stays repeated, whatever comes after. */
  lemma DistinctPrefix(k: Kernel, os: seq<Output>, more: seq<Output>)
    requires DistinctKeys(k, os + more)
    ensures DistinctKeys(k, os)
  {
    hide Identity;
    var all := os + more;
    forall i, j | 0 <= i < j < |os| && Identity(k, os[i]).Some? ensures Identity(k, os[i]) != Identity(k, os[j]) {
      assert all[i] == os[i] && all[j] == os[j];
    }
  }

  /** One category's drafts, appended to the outputs already made. */
  method MaterializeGroup(
      k: Kernel, e: Stored, aggregate: string, c: Category, drafts: seq<Body>, before: seq<Output>, keys: set<Id>)
    returns (r: Option<(seq<Output>, set<Id>)>)
    requires Collected(k, before, keys)
    ensures r.Some? <==> DraftsOk(k, c, drafts) && DistinctKeys(k, before + Group(k, e, aggregate, c, drafts))
    ensures r.Some? ==> r.value.0 == before + Group(k, e, aggregate, c, drafts) && Collected(k, r.value.0, r.value.1)
  {
    hide DraftOk, Make, Identity, Collected, DistinctKeys;
    var group := Group(k, e, aggregate, c, drafts);
    var outputs, dedupe := before, keys;
    var ordinal := 0;
    assert group[..0] == [] && before + [] == before;
    while ordinal < |drafts|
      invariant 0 <= ordinal <= |drafts|
      invariant outputs == before + group[..ordinal] && Collected(k, outputs, dedupe)
      invariant forall i :: 0 <= i < ordinal ==> DraftOk(k, c, drafts[i])
    {
      if !DraftOk(k, c, drafts[ordinal]) { return None; }
      var o := Make(k, e, aggregate, c, ordinal, drafts[ordinal]);
      var id := Identity(k, o);
      CollectedNext(k, outputs, dedupe, o);
      assert group[..ordinal + 1] == group[..ordinal] + [o];
      assert outputs + [o] == before + group[..ordinal + 1];
      assert before + group == (outputs + [o]) + group[ordinal + 1..];
      if id.Some? {
        if id.value in dedupe {
          if DistinctKeys(k, before + group) { DistinctPrefix(k, outputs + [o], group[ordinal + 1..]); }
          return None;
        }
        dedupe := dedupe + {id.value};
      }
      outputs := outputs + [o];
      ordinal := ordinal + 1;
    }
    assert group[..ordinal] == group;
    CollectedDistinct(k, outputs, dedupe);
    r := Some((outputs, dedupe));
  }

  lemma CollectedDistinct(k: Kernel, os: seq<Output>, keys: set<Id>)
    requires Collected(k, os, keys)
    ensures DistinctKeys(k, os)
  {
  }

  lemma NothingCollected(k: Kernel)
    ensures Collected(k, [], {})
  {
  }

  /** The outputs of a transition, category after category. */
  method Materialize(k: Kernel, e: Stored, aggregate: string, t: Transition) returns (r: Option<seq<Output>>)
    ensures r.Some? <==> Producible(k, e, aggregate, t)
    ensures r.Some? ==> r.value == Outputs(k, e, aggregate, t)
  {
    hide DraftsOk, Group, DistinctKeys, Collected;
    var d, j, m := Group(k, e, aggregate, Decision, t.decisions), Group(k, e, aggregate, Job, t.jobs), Group(k, e, aggregate, Outbox, t.outbox);
    assert [] + d == d && d + j + m == d + (j + m);
    if DistinctKeys(k, d + j + m) {
      DistinctPrefix(k, d + j, m);
      DistinctPrefix(k, d, j);
    }
    NothingCollected(k);
    var decisions := MaterializeGroup(k, e, aggregate, Decision, t.decisions, [], {});
    if decisions.None? { return None; }
    var jobs := MaterializeGroup(k, e, aggregate, Job, t.jobs, decisions.value.0, decisions.value.1);
    if jobs.None? { return None; }
    var outbox := MaterializeGroup(k, e, aggregate, Outbox, t.outbox, jobs.value.0, jobs.value.1);
    if outbox.None? { return None; }
    r := Some(outbox.value.0);
  }

  // ----- The store -----

  /** What `commit` accepts, over what the store holds and the log it reads. */
  predicate CommitAccepted(k: Kernel, v: View, events: seq<Stored>, c: Commit) {
    && At(events, c.event.position) == Some(c.event)
    && Current(k, v).processed == c.expectedPosition
    && TransitionChecked(k, c, Current(k, v))
    && c.aggregate.version == (if c.aggregate.aggregateId in v.aggregates then v.aggregates[c.aggregate.aggregateId].version else 0) + 1
    && KeysFree(k, v.dedupe, c.outputs)
  }

  /** One of the two logs. */
  datatype EventSource = Memory(memory: InMemoryEventLog) | Replay(captured: CapturedEventLog) {

    function Events(): seq<Stored>
      reads if Memory? then {memory} else {}
    {
      if Memory? then memory.events else captured.events
    }

    method Get(position: nat) returns (e: Option<Stored>)
      ensures e == At(Events(), position)
    {
      if Memory? { e := memory.Get(position); } else { e := captured.Get(position); }
    }

    method ReadAfter(position: nat, limit: nat) returns (page: Page)
      ensures page == PageAfter(Events(), position, limit)
    {
      if Memory? { page := memory.ReadAfter(position, limit); } else { page := captured.ReadAfter(position, limit); }
    }
  }

  class InMemoryProcessingStore {
    const k: Kernel
    var cursor: Option<Cursor>
    var aggregates: map<string, Checkpoint>
    var outputs: seq<Output>
    var dedupeKeys: map<Id, Id>

    function Holds(): View
      reads this
    {
      View(cursor, aggregates, outputs, dedupeKeys)
    }

    constructor (k: Kernel)
      ensures Holds() == EMPTY_VIEW && this.k == k
    {
      this.k := k;
      cursor, aggregates, outputs, dedupeKeys := None, map[], [], map[];
    }

    /** All or nothing: the commit is checked against the log and the prior cursor, then everything is stored. */
    method Commit(log: EventSource, c: Commit) returns (ok: bool)
      modifies this
      ensures ok == CommitAccepted(k, old(Holds()), log.Events(), c)
      ensures Holds() == if ok then Accept(k, old(Holds()), c.cursor, c.aggregate, c.outputs) else old(Holds())
    {
      hide TransitionChecked, KeysFree, UseKeys;
      var persisted := log.Get(c.event.position);
      if persisted != Some(c.event) { return false; }
      var previous := Current(k, Holds());
      if previous.processed != c.expectedPosition { return false; }
      var verified := VerifyTransition(k, c, previous);
      if !verified { return false; }
      var prior := if c.aggregate.aggregateId in aggregates then aggregates[c.aggregate.aggregateId].version else 0;
      if c.aggregate.version != prior + 1 { return false; }
      var free := CheckKeys(c.outputs);
      if !free { return false; }
      var used := AddKeys(c.outputs);
      aggregates := aggregates[c.aggregate.aggregateId := c.aggregate];
      outputs := outputs + c.outputs;
      dedupeKeys := used;
      cursor := Some(c.cursor);
      ok := true;
    }

    method CheckKeys(os: seq<Output>) returns (ok: bool)
      ensures ok == KeysFree(k, dedupeKeys, os)
    {
      hide Identity;
      for i := 0 to |os|
        invariant forall j :: 0 <= j < i && Identity(k, os[j]).Some? && Identity(k, os[j]).value in dedupeKeys
                    ==> dedupeKeys[Identity(k, os[j]).value] == os[j].outputId
      {
        var id := Identity(k, os[i]);
        if id.Some? && id.value in dedupeKeys && dedupeKeys[id.value] != os[i].outputId { return false; }
      }
      ok := true;
    }

    method AddKeys(os: seq<Output>) returns (used: map<Id, Id>)
      ensures used == UseKeys(k, dedupeKeys, os)
    {
      hide Identity;
      used := dedupeKeys;
      assert os[..0] == [];
      for i := 0 to |os|
        invariant used == UseKeys(k, dedupeKeys, os[..i])
      {
        assert os[..i + 1][..i] == os[..i];
        var id := Identity(k, os[i]);
        if id.Some? { used := used[id.value := os[i].outputId]; }
      }
      assert os[..|os|] == os;
    }
  }

  /** A commit against the cursor before it, its outputs one after another. */
  method VerifyTransition(k: Kernel, c: Commit, previous: Cursor) returns (ok: bool)
    ensures ok == TransitionChecked(k, c, previous)
  {
    hide OutputsChecked, Verified, CursorSealed, CheckpointSealed, GenesisCursor, Semantics;
    if !Verified(k.sha, c.event, c.event.previousEventHash) { return false; }
    if !CursorSealed(k, c.cursor) { return false; }
    if c.cursor.processed != c.event.position || c.cursor.logicalAtMs != c.event.captured.logicalAtMs
       || c.cursor.lastEventHash != c.event.eventHash { return false; }
    if !CheckpointSealed(k, c.aggregate) || c.aggregate.lastInput != c.event.position || c.aggregate.version == 0 { return false; }
    var checked := VerifyOutputs(k, c.event, c.aggregate.aggregateId, c.outputs);
    if !checked || !CursorSealed(k, previous) { return false; }
    if previous.processed == 0 && previous != GenesisCursor(k) { return false; }
    if c.expectedPosition != previous.processed || c.event.position != previous.processed + 1 { return false; }
    if c.event.previousEventHash != previous.lastEventHash || c.event.captured.logicalAtMs < previous.logicalAtMs { return false; }
    ok := c.cursor.stateHead
            == k.sha(StateStepPre(previous.stateHead, c.event.eventHash, c.aggregate.aggregateId, c.aggregate.stateHash))
          && c.cursor.decisionHead == k.sha(DecisionStepPre(previous.decisionHead, c.event.eventHash, Semantics(c.outputs)));
  }

  lemma AcceptedParts(k: Kernel, v: View, events: seq<Stored>, c: Commit)
    requires At(events, c.event.position) == Some(c.event) && Current(k, v).processed == c.expectedPosition
    requires c.aggregate.version == (if c.aggregate.aggregateId in v.aggregates then v.aggregates[c.aggregate.aggregateId].version else 0) + 1
    ensures CommitAccepted(k, v, events, c) <==> TransitionChecked(k, c, Current(k, v)) && KeysFree(k, v.dedupe, c.outputs)
  {
    hide TransitionChecked, KeysFree, Current, At;
  }

  lemma AdvanceParts(k: Kernel, v: View, e: Stored)
    requires Produce(k, v, e).Some?
    ensures var c := Produce(k, v, e).value;
            Advance(k, v, e).Some? <==> AllFit(c.outputs) && KeysFree(k, v.dedupe, c.outputs)
  {
    hide Produce, AllFit, KeysFree, Accept;
  }

  /** What the store accepts of what the processor produces is exactly what the fold accepts. */
  lemma CommitIsAdvance(k: Kernel, v: View, events: seq<Stored>, n: nat)
    requires Injective(k.sha) && Chain(k.sha, events) && Wellformed(k.sha, events) && n < |events|
    requires CursorAt(k, Current(k, v), events, n) && Produce(k, v, events[n]).Some?
    ensures CommitAccepted(k, v, events, Produce(k, v, events[n]).value) <==> Advance(k, v, events[n]).Some?
  {
    hide *;
    var c := Produce(k, v, events[n]).value;
    ProducerMeetsChecker(k, v, events, n);
    ChainAt(k.sha, events, n);
    AtNext(events, n);
    ProducedVersion(k, v, events[n]);
    var t, aggregate := ProducedFrom(k, v, events[n]);
    AcceptedParts(k, v, events, c);
    AdvanceParts(k, v, events[n]);
  }

  lemma AtNext(events: seq<Stored>, n: nat)
    requires n < |events| && events[n].position == n + 1
    ensures At(events, n + 1) == Some(events[n])
  {
  }

  lemma ProducedVersion(k: Kernel, v: View, e: Stored)
    requires Produce(k, v, e).Some?
    ensures var a := Produce(k, v, e).value.aggregate;
            a.version == (if a.aggregateId in v.aggregates then v.aggregates[a.aggregateId].version else 0) + 1
  {
    hide Producible, Outputs, NextCursor;
  }

  // ----- The processor -----

  const SUFFIX_PAGE: nat := 1000

  /** A submission is answered with the cursor when the event is the next one or one already processed. */
  predicate Resubmission(events: seq<Stored>, n: nat, e: Stored) {
    1 <= e.position <= n && At(events, e.position) == Some(e)
  }

  predicate NextInLog(k: Kernel, v: View, events: seq<Stored>, n: nat, e: Stored) {
    n < |events| && e == events[n] && Advance(k, v, e).Some?
  }

  class DeterministicProcessor {
    const k: Kernel
    const store: InMemoryProcessingStore
    const log: EventSource

    constructor (store: InMemoryProcessingStore, log: EventSource)
      ensures this.store == store && this.log == log && this.k == store.k
      ensures store.Holds() == EMPTY_VIEW && Injective(store.k.sha) && Chain(store.k.sha, log.Events()) && Wellformed(store.k.sha, log.Events())
              ==> Ready()
    {
      this.k := store.k;
      this.store := store;
      this.log := log;
      new;
      hide Injective, Chain, Wellformed, Reached;
      StartReached(k, log.Events());
    }

    ghost predicate Ready()
      reads store, if log.Memory? then {log.memory} else {}
    {
      && k == store.k && Injective(k.sha)
      && Chain(k.sha, log.Events()) && Wellformed(k.sha, log.Events())
      && exists n :: Reached(k, store.Holds(), log.Events(), n)
    }

    /** The checkpoint of an aggregate, or the genesis of a new one. */
    method LoadPrior(aggregate: string) returns (r: Option<Checkpoint>)
      requires k == store.k
      ensures r == Prior(k, store.Holds(), aggregate)
    {
      if aggregate in store.aggregates { return Some(store.aggregates[aggregate]); }
      var initial := k.reducer.initial(aggregate);
      if initial.None? { return None; }
      var state := k.reducer.parse(initial.value);
      if state.None? { return None; }
      r := Some(SealCheckpoint(k, aggregate, 0, 0, state.value));
    }

    /** The commit for the next event. */
    method Build(e: Stored) returns (c: Option<Commit>)
      requires k == store.k
      ensures c == Produce(k, store.Holds(), e)
    {
      hide Producible, Outputs, NextCursor, Prior, Recognized, SealCheckpoint;
      var previous := Current(k, store.Holds());
      var aggregate := k.reducer.route(e);
      if aggregate.None? { return None; }
      var prior := LoadPrior(aggregate.value);
      if prior.None? { return None; }
      var before := Recognized(k, prior.value);
      if before.None? { return None; }
      var t := k.reducer.apply(before.value, e);
      if t.None? { return None; }
      var state := k.reducer.parse(t.value.state);
      if state.None? { return None; }
      var os := Materialize(k, e, aggregate.value, t.value);
      if os.None? { return None; }
      var next := SealCheckpoint(k, aggregate.value, prior.value.version + 1, e.position, state.value);
      c := Some(Commit(previous.processed, e, NextCursor(k, previous, e, next, os.value), next, os.value));
    }

    /** The event is the persisted one at its position and follows the given hash. */
    method VerifyExact(e: Stored, expectedPrevious: Id) returns (ok: bool)
      ensures ok <==> Verified(k.sha, e, expectedPrevious) && At(log.Events(), e.position) == Some(e)
    {
      hide Verified;
      if !Verified(k.sha, e, expectedPrevious) { return false; }
      var persisted := log.Get(e.position);
      if persisted.None? { return false; }
      if !Verified(k.sha, persisted.value, expectedPrevious) { return false; }
      ok := persisted.value == e;
    }

    /** The chain from a processed event up to the cursor, read page by page. */
    method VerifySuffix(start: nat, startHash: Id, cursor: Cursor) returns (ok: bool)
      requires Chain(k.sha, log.Events()) && 1 <= start <= cursor.processed <= |log.Events()|
      requires startHash == HashBefore(log.Events(), start)
      ensures ok <==> cursor.lastEventHash == HashBefore(log.Events(), cursor.processed)
    {
      hide Chain, Verified;
      var position, eventHash := start, startHash;
      while position < cursor.processed
        invariant start <= position <= cursor.processed && eventHash == HashBefore(log.Events(), position)
      {
        var remaining := cursor.processed - position;
        var limit := if remaining < SUFFIX_PAGE then remaining else SUFFIX_PAGE;
        var page := log.ReadAfter(position, limit);
        PageCovers(k.sha, log.Events(), position, limit);
        PageLimited(log.Events(), position, limit);
        ghost var from := position;
        for i := 0 to |page.events|
          invariant position == from + i && eventHash == HashBefore(log.Events(), position)
        {
          var e := page.events[i];
          ChainAt(k.sha, log.Events(), from + i);
          if e.position != position + 1 || !Verified(k.sha, e, eventHash) { assert false; }
          position := position + 1;
          eventHash := e.eventHash;
        }
        if page.nextPosition != position { assert false; }
      }
      ok := eventHash == cursor.lastEventHash;
    }

    /** The hash a resubmitted event has to follow. */
    method PredecessorHash(position: nat) returns (hash: Option<Id>)
      requires Chain(k.sha, log.Events()) && 1 <= position <= |log.Events()|
      ensures hash == Some(HashBefore(log.Events(), position - 1))
    {
      hide Chain;
      if position == 1 { return Some(GENESIS_HASH); }
      var predecessor := log.Get(position - 1);
      ChainAt(k.sha, log.Events(), position - 2);
      if predecessor.None? || predecessor.value.position != position - 1 { assert false; }
      hash := Some(predecessor.value.eventHash);
    }

    /**
      Submit an event. It succeeds exactly for the next event of the log, when the reducer and the store
      accept it, and for an exact copy of one already processed, which changes nothing.
     */
    method Process(e: Stored) returns (r: Option<Cursor>)
      requires Ready()
      modifies store
      ensures Ready()
      ensures var v, events := old(store.Holds()), log.Events();
              var n := Current(k, v).processed;
              && (r.Some? <==> Resubmission(events, n, e) || NextInLog(k, v, events, n, e))
              && store.Holds() == (if NextInLog(k, v, events, n, e) then Advance(k, v, e).value else v)
              && (r.Some? ==> r.value == Current(k, store.Holds()))
    {
      hide Verified, Injective, Chain, Wellformed, Advance, Produce, AggregatesSound, Folded, CommitAccepted, CursorSealed, GenesisCursor;
      ghost var v, events := store.Holds(), log.Events();
      var previous := Current(k, store.Holds());
      var n := previous.processed;
      ghost var reached :| Reached(k, v, events, reached);
      if e.position == 0 || !Verified(k.sha, e, e.previousEventHash) {
        Unverified(k, v, events, n, e);
        return None;
      }
      if e.position <= n {
        var expected := PredecessorHash(e.position);
        var exact := VerifyExact(e, expected.value);
        ExactIs(k.sha, events, e);
        NotLater(k, v, events, n, e);
        if !exact { return None; }
        var suffix := VerifySuffix(e.position, e.eventHash, previous);
        if !suffix { assert false; }
        return Some(previous);
      }
      if e.position != n + 1 {
        NotNext(k, v, events, n, e);
        return None;
      }
      var exact := VerifyExact(e, previous.lastEventHash);
      ExactIs(k.sha, events, e);
      if !exact {
        NotNext(k, v, events, n, e);
        return None;
      }
      CursorClock(k, previous, events, n);
      if e.captured.logicalAtMs < previous.logicalAtMs { assert false; }
      var c := Build(e);
      AdvanceNeeds(k, v, e);
      if c.None? { return None; }
      CommitIsAdvance(k, v, events, n);
      var committed := store.Commit(log, c.value);
      if !committed { return None; }
      AdvanceIs(k, v, e);
      ReachedNext(k, v, events, n);
      ProducedEvent(k, v, e);
      r := Some(c.value.cursor);
    }

    /**
      Process whatever the log holds beyond the cursor, page after page. It succeeds exactly when the
      fold of the whole log is defined, and the store then holds it; otherwise the store holds the fold
      of the events before the first one refused.
     */
    method ProcessAvailable(pageSize: nat) returns (r: Option<Cursor>)
      requires Ready() && pageSize > 0
      modifies store
      ensures Ready()
      ensures r.Some? <==> Folded(k, log.Events()).Some?
      ensures r.Some? ==> Folded(k, log.Events()) == Some(store.Holds()) && r.value == Current(k, store.Holds())
      ensures r.None? ==> exists n :: Stopped(k, store.Holds(), log.Events(), n)
    {
      hide Chain, Wellformed, Injective, Advance, Folded, Reached, Current, Stopped, PageAfter, Slice;
      ghost var events := log.Events();
      ghost var start :| Reached(k, store.Holds(), events, start);
      ReachedCursor(k, store.Holds(), events, start);
      var cursor := Current(k, store.Holds());
      while true
        invariant Ready() && Reached(k, store.Holds(), events, cursor.processed) && cursor == Current(k, store.Holds())
        decreases |events| - cursor.processed
      {
        ReachedCursor(k, store.Holds(), events, cursor.processed);
        var page := log.ReadAfter(cursor.processed, pageSize);
        PageCovers(k.sha, events, cursor.processed, pageSize);
        ghost var from := cursor.processed;
        for i := 0 to |page.events|
          invariant Ready() && Reached(k, store.Holds(), events, from + i)
          invariant cursor == Current(k, store.Holds()) && cursor.processed == from + i
        {
          assert page.events[i] == events[from + i];
          ReachedCursor(k, store.Holds(), events, from + i);
          ghost var v := store.Holds();
          NextIs(k, v, events, from + i);
          var next := Process(page.events[i]);
          if next.None? {
            FoldedStops(k, v, events, from + i);
            return None;
          }
          ReachedNext(k, v, events, from + i);
          ReachedCursor(k, store.Holds(), events, from + i + 1);
          cursor := next.value;
        }
        if !page.hasMore {
          ReachedAll(k, store.Holds(), events, cursor.processed);
          return Some(cursor);
        }
      }
    }
  }

  /** The store holds the fold of the events before one that the fold refuses. */
  ghost predicate Stopped(k: Kernel, v: View, events: seq<Stored>, n: nat) {
    n < |events| && Folded(k, events[..n]) == Some(v) && Folded(k, events[..n + 1]).None?
  }

  lemma ReachedCursor(k: Kernel, v: View, events: seq<Stored>, n: nat)
    requires Reached(k, v, events, n)
    ensures Current(k, v).processed == n && n <= |events|
  {
    hide Folded, AggregatesSound;
  }

  /** The event after the cursor is not one already processed. */
  lemma NextIs(k: Kernel, v: View, events: seq<Stored>, n: nat)
    requires Chain(k.sha, events) && n < |events|
    ensures !Resubmission(events, n, events[n]) && (NextInLog(k, v, events, n, events[n]) <==> Advance(k, v, events[n]).Some?)
  {
    hide Chain, Advance;
    ChainAt(k.sha, events, n);
  }

  lemma FoldedStops(k: Kernel, v: View, events: seq<Stored>, n: nat)
    requires Reached(k, v, events, n) && n < |events| && Advance(k, v, events[n]).None?
    ensures Folded(k, events).None? && Stopped(k, v, events, n)
  {
    hide Folded, Advance, AggregatesSound, CursorAt;
    FoldedNext(k, events, n);
    FoldedRefused(k, events, n);
  }

  lemma ReachedAll(k: Kernel, v: View, events: seq<Stored>, n: nat)
    requires Reached(k, v, events, n) && n == |events|
    ensures Folded(k, events) == Some(v)
  {
    hide Folded, AggregatesSound, CursorAt;
    assert events[..n] == events;
  }

  lemma PageLimited(events: seq<Stored>, position: nat, limit: nat)
    ensures |PageAfter(events, position, limit).events| <= limit
  {
  }

  lemma Unverified(k: Kernel, v: View, events: seq<Stored>, n: nat, e: Stored)
    requires Chain(k.sha, events) && (e.position == 0 || !Verified(k.sha, e, e.previousEventHash))
    ensures !Resubmission(events, n, e) && !NextInLog(k, v, events, n, e)
  {
    hide Advance, Verified, Chain;
    if Resubmission(events, n, e) { ChainAt(k.sha, events, e.position - 1); }
    if n < |events| && e == events[n] { ChainAt(k.sha, events, n); }
  }

  lemma NotNext(k: Kernel, v: View, events: seq<Stored>, n: nat, e: Stored)
    requires Chain(k.sha, events) && (e.position != n + 1 || At(events, e.position) != Some(e)) && e.position > n
    ensures !Resubmission(events, n, e) && !NextInLog(k, v, events, n, e)
  {
    hide Advance, Verified, Chain;
    if n < |events| && e == events[n] { ChainAt(k.sha, events, n); }
  }

  lemma NotLater(k: Kernel, v: View, events: seq<Stored>, n: nat, e: Stored)
    requires Chain(k.sha, events) && e.position <= n
    ensures !NextInLog(k, v, events, n, e)
  {
    hide Advance, Verified, Chain;
    if n < |events| && e == events[n] { ChainAt(k.sha, events, n); }
  }

  lemma ExactIs(sha: Sha, events: seq<Stored>, e: Stored)
    requires Chain(sha, events) && e.position >= 1
    ensures At(events, e.position) == Some(e) ==>
              Verified(sha, e, HashBefore(events, e.position - 1)) && HashBefore(events, e.position) == e.eventHash
  {
    hide Verified, Chain;
    if At(events, e.position) == Some(e) { ChainAt(sha, events, e.position - 1); }
  }

  lemma AdvanceNeeds(k: Kernel, v: View, e: Stored)
    ensures Advance(k, v, e).Some? ==> Produce(k, v, e).Some?
  {
    hide Produce;
  }

  lemma AdvanceIs(k: Kernel, v: View, e: Stored)
    requires Advance(k, v, e).Some?
    ensures Produce(k, v, e).Some?
    ensures var c := Produce(k, v, e).value; Advance(k, v, e).value == Accept(k, v, c.cursor, c.aggregate, c.outputs)
  {
    hide Produce;
  }

  lemma ProducedEvent(k: Kernel, v: View, e: Stored)
    requires Produce(k, v, e).Some?
    ensures Produce(k, v, e).value.event == e
  {
    var t, a := ProducedFrom(k, v, e);
  }

  // ----- Heads determine history -----

  /** A run as its sequence of verified commits from genesis. */
  predicate RunVerified(k: Kernel, cs: seq<Commit>) {
    forall i :: 0 <= i < |cs| ==> TransitionChecked(k, cs[i], CursorBefore(k, cs, i))
  }

  function CursorBefore(k: Kernel, cs: seq<Commit>, n: nat): Cursor
    requires n <= |cs|
  {
    if n == 0 then GenesisCursor(k) else cs[n - 1].cursor
  }

  /** What the two heads say about one commit. */
  predicate SameRecord(a: Commit, b: Commit) {
    && a.event.eventHash == b.event.eventHash
    && a.aggregate.aggregateId == b.aggregate.aggregateId && a.aggregate.stateHash == b.aggregate.stateHash
    && Semantics(a.outputs) == Semantics(b.outputs)
  }

  lemma HeadsOf(k: Kernel, c: Commit, previous: Cursor)
    requires TransitionChecked(k, c, previous)
    ensures c.cursor.stateHead
              == k.sha(StateStepPre(previous.stateHead, c.event.eventHash, c.aggregate.aggregateId, c.aggregate.stateHash))
    ensures c.cursor.decisionHead == k.sha(DecisionStepPre(previous.decisionHead, c.event.eventHash, Semantics(c.outputs)))
  {
    hide CommitChecked, CursorSealed, GenesisCursor, Semantics;
  }

  lemma StepHeadsDetermine(k: Kernel, a: Commit, p: Cursor, b: Commit, q: Cursor)
    requires Injective(k.sha) && TransitionChecked(k, a, p) && TransitionChecked(k, b, q)
    requires a.cursor.stateHead == b.cursor.stateHead && a.cursor.decisionHead == b.cursor.decisionHead
    ensures SameRecord(a, b) && p.stateHead == q.stateHead && p.decisionHead == q.decisionHead
  {
    HeadsOf(k, a, p);
    HeadsOf(k, b, q);
    hide TransitionChecked, Semantics;
    assert k.sha(StateStepPre(p.stateHead, a.event.eventHash, a.aggregate.aggregateId, a.aggregate.stateHash))
        == k.sha(StateStepPre(q.stateHead, b.event.eventHash, b.aggregate.aggregateId, b.aggregate.stateHash));
    assert k.sha(DecisionStepPre(p.decisionHead, a.event.eventHash, Semantics(a.outputs)))
        == k.sha(DecisionStepPre(q.decisionHead, b.event.eventHash, Semantics(b.outputs)));
  }

  lemma StepIsNotGenesis(k: Kernel, a: Commit, p: Cursor)
    requires Injective(k.sha) && TransitionChecked(k, a, p)
    ensures a.cursor.stateHead != GenesisCursor(k).stateHead
  {
    HeadsOf(k, a, p);
    hide TransitionChecked, Semantics;
    assert k.sha(StateStepPre(p.stateHead, a.event.eventHash, a.aggregate.aggregateId, a.aggregate.stateHash))
        != k.sha(StateGenesisPre(k.run.behaviorHash));
  }

  lemma RunPrefix(k: Kernel, cs: seq<Commit>, n: nat)
    requires RunVerified(k, cs) && n <= |cs|
    ensures RunVerified(k, cs[..n]) && CursorBefore(k, cs[..n], n) == CursorBefore(k, cs, n)
  {
    hide TransitionChecked, GenesisCursor;
    var head := cs[..n];
    forall i | 0 <= i < n ensures TransitionChecked(k, head[i], CursorBefore(k, head, i)) {
      assert head[i] == cs[i] && CursorBefore(k, head, i) == CursorBefore(k, cs, i);
    }
  }

  /** Two verified runs with equal heads have the same length and the same record at every position. */
  lemma {:induction false} HeadsDetermineHistory(k: Kernel, a: seq<Commit>, b: seq<Commit>)
    requires Injective(k.sha) && RunVerified(k, a) && RunVerified(k, b)
    requires CursorBefore(k, a, |a|).stateHead == CursorBefore(k, b, |b|).stateHead
    requires CursorBefore(k, a, |a|).decisionHead == CursorBefore(k, b, |b|).decisionHead
    ensures |a| == |b| && forall i :: 0 <= i < |a| ==> SameRecord(a[i], b[i])
    decreases |a|
  {
    hide Injective, TransitionChecked, GenesisCursor, SameRecord;
    if a == [] && b == [] {
    } else if a == [] {
      StepIsNotGenesis(k, b[|b| - 1], CursorBefore(k, b, |b| - 1));
    } else if b == [] {
      StepIsNotGenesis(k, a[|a| - 1], CursorBefore(k, a, |a| - 1));
    } else {
      var n, m := |a| - 1, |b| - 1;
      StepHeadsDetermine(k, a[n], CursorBefore(k, a, n), b[m], CursorBefore(k, b, m));
      RunPrefix(k, a, n);
      RunPrefix(k, b, m);
      HeadsDetermineHistory(k, a[..n], b[..m]);
      forall i | 0 <= i < |a| ensures SameRecord(a[i], b[i]) {
        if i < n { assert a[..n][i] == a[i] && b[..m][i] == b[i]; }
      }
    }
  }
}
