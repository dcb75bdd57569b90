/**
  What the fold is a fold of: states, versions and outputs of a run written down from the reducer's own
  functions, without a checkpoint, a hash or a store, and exactly which logs a reducer gets through.
 */
module ProcessorFold {
  import opened Base
  import opened Events
  import opened Processor
  import opened ProcessorRuns

  // ----- A run of the reducer alone -----

  function NewState(r: Reducer, state: string, e: Stored): Option<string> {
    var t := r.apply(state, e);
    if t.None? then None else r.parse(t.value.state)
  }

  /** The state of an aggregate after a list of events: the reducer, applied to those routed to it. */
  function StateAfter(r: Reducer, events: seq<Stored>, a: string): Option<string> {
    if events == [] then (var first := r.initial(a); if first.None? then None else r.parse(first.value))
    else
      var before, e := StateAfter(r, events[..|events| - 1], a), events[|events| - 1];
      if before.None? || r.route(e) != Some(a) then before else NewState(r, before.value, e)
  }

  /** How many of the events were routed to an aggregate. */
  function Visits(r: Reducer, events: seq<Stored>, a: string): nat {
    if events == [] then 0
    else Visits(r, events[..|events| - 1], a) + (if r.route(events[|events| - 1]) == Some(a) then 1 else 0)
  }

  /** The position of the last of them. */
  function LastVisit(r: Reducer, events: seq<Stored>, a: string): nat {
    if events == [] then 0
    else if r.route(events[|events| - 1]) == Some(a) then events[|events| - 1].position
    else LastVisit(r, events[..|events| - 1], a)
  }

  /** An output as the reducer means it, with the key it is told apart by and the time it is due. */
  datatype Emission = Emission(
    position: nat, aggregate: string, category: Category, ordinal: nat, body: Body, key: Option<string>, due: Option<int>)

  function Addressed(position: nat, aggregate: string, category: Category, ordinal: nat, body: Body): Emission {
    match body
    case DecisionBody(_, _) => Emission(position, aggregate, category, ordinal, body, None, None)
    case JobBody(_, _, key, due, _, _) => Emission(position, aggregate, category, ordinal, body, Some(key), Some(due))
    case MessageBody(_, _, key, _) => Emission(position, aggregate, category, ordinal, body, Some(key), None)
  }

  function Listed(e: Stored, a: string, c: Category, drafts: seq<Body>): (r: seq<Emission>)
    ensures |r| == |drafts| && forall i :: 0 <= i < |r| ==> r[i] == Addressed(e.position, a, c, i, drafts[i])
  {
    seq(|drafts|, i requires 0 <= i < |drafts| => Addressed(e.position, a, c, i, drafts[i]))
  }

  function EmittedBy(e: Stored, a: string, t: Transition): seq<Emission> {
    Listed(e, a, Decision, t.decisions) + Listed(e, a, Job, t.jobs) + Listed(e, a, Outbox, t.outbox)
  }

  /** What the reducer answers to an event, after the events before it. */
  function Answer(r: Reducer, before: seq<Stored>, e: Stored): Option<Transition> {
    var a := r.route(e);
    var state := if a.None? then None else StateAfter(r, before, a.value);
    if state.None? then None else r.apply(state.value, e)
  }

  /** Event by event, decisions before jobs before messages, each in the reducer's order. */
  function Emitted(r: Reducer, events: seq<Stored>): seq<Emission> {
    if events == [] then []
    else
      var before, e := events[..|events| - 1], events[|events| - 1];
      var t := Answer(r, before, e);
      Emitted(r, before) + if t.None? || r.route(e).None? then [] else EmittedBy(e, r.route(e).value, t.value)
  }

  function Plain(o: Output): Emission {
    Emission(o.inputPosition, o.aggregateId, o.category, o.ordinal, o.body, o.dedupeKey, o.notBeforeLogicalMs)
  }

  predicate Meant(os: seq<Output>, es: seq<Emission>) {
    |os| == |es| && forall i :: 0 <= i < |os| ==> Plain(os[i]) == es[i]
  }

  // ----- The store holds that run -----

  /** A checkpoint of an aggregate after a list of events. */
  predicate CheckpointMeant(k: Kernel, events: seq<Stored>, a: string, c: Checkpoint) {
    && CheckpointSealed(k, c) && c.aggregateId == a
    && StateAfter(k.reducer, events, a) == Some(c.state)
    && c.version == Visits(k.reducer, events, a) && c.lastInput == LastVisit(k.reducer, events, a)
  }

  ghost predicate AggregatesMeant(k: Kernel, events: seq<Stored>, aggregates: map<string, Checkpoint>) {
    && (forall a :: a in aggregates <==> Visits(k.reducer, events, a) > 0)
    && forall a :: a in aggregates ==> CheckpointMeant(k, events, a, aggregates[a])
  }

  lemma {:induction false} Unvisited(r: Reducer, events: seq<Stored>, a: string)
    requires Visits(r, events, a) == 0
    ensures StateAfter(r, events, a) == StateAfter(r, [], a)
  {
    if events != [] { Unvisited(r, events[..|events| - 1], a); }
  }

  lemma OneMore(r: Reducer, events: seq<Stored>, e: Stored, a: string)
    ensures Visits(r, events + [e], a) == Visits(r, events, a) + (if r.route(e) == Some(a) then 1 else 0)
    ensures LastVisit(r, events + [e], a) == if r.route(e) == Some(a) then e.position else LastVisit(r, events, a)
    ensures var before := StateAfter(r, events, a);
            StateAfter(r, events + [e], a) == if before.None? || r.route(e) != Some(a) then before else NewState(r, before.value, e)
  {
    assert (events + [e])[..|events|] == events;
  }

  lemma EmittedMore(r: Reducer, events: seq<Stored>, e: Stored)
    ensures var t := Answer(r, events, e);
            Emitted(r, events + [e]) == Emitted(r, events) + if t.None? || r.route(e).None? then [] else EmittedBy(e, r.route(e).value, t.value)
  {
    assert (events + [e])[..|events|] == events;
  }

  /** The state an event is applied to is the aggregate's state, taken up again under its own hash. */
  lemma StateBefore(k: Kernel, events: seq<Stored>, v: View, a: string)
    requires Injective(k.sha) && AggregatesMeant(k, events, v.aggregates)
    ensures var state := StateAfter(k.reducer, events, a);
            && (Prior(k, v, a).Some? <==> state.Some?)
            && (state.Some? ==>
                  var prior := Prior(k, v, a).value;
                  && prior.version == Visits(k.reducer, events, a)
                  && Recognized(k, prior) == if k.reducer.parse(state.value) == state then state else None)
  {
    if a in v.aggregates {
      assert CheckpointMeant(k, events, a, v.aggregates[a]);
    } else {
      Unvisited(k.reducer, events, a);
    }
    hide Recognized, StateAfter, Visits, LastVisit;
    if Prior(k, v, a).Some? { RecognizedExactly(k, Prior(k, v, a).value); }
  }

  lemma OutputsMeant(k: Kernel, e: Stored, a: string, t: Transition)
    ensures Meant(Outputs(k, e, a, t), EmittedBy(e, a, t))
  {
    OutputsPlaced(k, e, a, t);
    var os := Outputs(k, e, a, t);
    hide Outputs;
    forall i | 0 <= i < |os| ensures Plain(os[i]) == EmittedBy(e, a, t)[i] {
      assert Placed(k, e, a, t, os, i);
    }
  }

  /** The commit an event gives, said by the reducer's own answer. */
  lemma ProducedMeant(k: Kernel, events: seq<Stored>, v: View, e: Stored)
    requires Injective(k.sha) && AggregatesMeant(k, events, v.aggregates) && Produce(k, v, e).Some?
    ensures var r := k.reducer;
            && r.route(e).Some? && Answer(r, events, e).Some?
            && var a, t, c := r.route(e).value, Answer(r, events, e).value, Produce(k, v, e).value;
            && c.aggregate.aggregateId == a && CheckpointMeant(k, events + [e], a, c.aggregate)
            && c.outputs == Outputs(k, e, a, t) && Meant(c.outputs, EmittedBy(e, a, t))
  {
    hide Recognized, Prior, StateAfter, Visits, LastVisit, Producible, Outputs, EmittedBy, NextCursor, AggregatesMeant, Meant;
    var a := k.reducer.route(e).value;
    StateBefore(k, events, v, a);
    OneMore(k.reducer, events, e, a);
    OutputsMeant(k, e, a, Answer(k.reducer, events, e).value);
  }

  lemma AggregatesNext(k: Kernel, events: seq<Stored>, v: View, e: Stored, c: Checkpoint)
    requires AggregatesMeant(k, events, v.aggregates) && k.reducer.route(e) == Some(c.aggregateId)
    requires CheckpointMeant(k, events + [e], c.aggregateId, c)
    ensures AggregatesMeant(k, events + [e], v.aggregates[c.aggregateId := c])
  {
    hide StateAfter, Visits, LastVisit, CheckpointSealed;
    forall a ensures
        Visits(k.reducer, events + [e], a) == Visits(k.reducer, events, a) + (if a == c.aggregateId then 1 else 0)
      ensures a in v.aggregates && a != c.aggregateId ==> CheckpointMeant(k, events + [e], a, v.aggregates[a]) {
      OneMore(k.reducer, events, e, a);
    }
  }

  lemma {:induction false} FoldMeant(k: Kernel, events: seq<Stored>, n: nat)
    requires Injective(k.sha) && n <= |events| && Folded(k, events[..n]).Some?
    ensures var v := Folded(k, events[..n]).value;
            AggregatesMeant(k, events[..n], v.aggregates) && Meant(v.outputs, Emitted(k.reducer, events[..n]))
  {
    hide *;
    if n == 0 {
      StartMeant(k, events);
    } else {
      PrefixFolded(k, events, n - 1, n);
      FoldMeant(k, events, n - 1);
      FoldedNext(k, events, n - 1);
      var v, e := Folded(k, events[..n - 1]).value, events[n - 1];
      assert events[..n - 1] + [e] == events[..n];
      AdvanceIs(k, v, e);
      AcceptIs(k, v, Produce(k, v, e).value);
      ProducedMeant(k, events[..n - 1], v, e);
      AggregatesNext(k, events[..n - 1], v, e, Produce(k, v, e).value.aggregate);
      EmittedMore(k.reducer, events[..n - 1], e);
      MeantTogether(v.outputs, Emitted(k.reducer, events[..n - 1]), Produce(k, v, e).value.outputs,
                    EmittedBy(e, k.reducer.route(e).value, Answer(k.reducer, events[..n - 1], e).value));
    }
  }

  lemma AcceptIs(k: Kernel, v: View, c: Commit)
    ensures var u := Accept(k, v, c.cursor, c.aggregate, c.outputs);
            && u.aggregates == v.aggregates[c.aggregate.aggregateId := c.aggregate] && u.outputs == v.outputs + c.outputs
            && u.dedupe == UseKeys(k, v.dedupe, c.outputs)
  {
  }

  lemma StartMeant(k: Kernel, events: seq<Stored>)
    ensures Folded(k, events[..0]) == Some(EMPTY_VIEW)
    ensures AggregatesMeant(k, events[..0], EMPTY_VIEW.aggregates) && Meant(EMPTY_VIEW.outputs, Emitted(k.reducer, events[..0]))
  {
    assert events[..0] == [];
  }

  lemma PrefixFolded(k: Kernel, events: seq<Stored>, m: nat, n: nat)
    requires m <= n <= |events| && Folded(k, events[..n]).Some?
    ensures Folded(k, events[..m]).Some?
  {
    var step := (v: View, e: Stored) => Advance(k, v, e);
    FoldConcat(step, EMPTY_VIEW, events[..m], events[m..n]);
    assert events[..m] + events[m..n] == events[..n];
    hide Advance, Fold;
  }

  lemma MeantTogether(os: seq<Output>, es: seq<Emission>, more: seq<Output>, others: seq<Emission>)
    requires Meant(os, es) && Meant(more, others)
    ensures Meant(os + more, es + others)
  {
  }

  /**
    The store of a run that got through a log holds, for each aggregate that was visited, the state the
    reducer alone gives it, the number of its visits and the last of them, and the outputs the reducer
    returned, event by event and category by category.
   */
  lemma FoldIsReducer(k: Kernel, events: seq<Stored>)
    requires Injective(k.sha) && Folded(k, events).Some?
    ensures var v, r := Folded(k, events).value, k.reducer;
            && (forall a :: a in v.aggregates <==> Visits(r, events, a) > 0)
            && (forall a :: a in v.aggregates ==>
                  && Some(v.aggregates[a].state) == StateAfter(r, events, a)
                  && v.aggregates[a].version == Visits(r, events, a)
                  && v.aggregates[a].lastInput == LastVisit(r, events, a))
            && Meant(v.outputs, Emitted(r, events))
  {
    hide Folded, Meant, Emitted, StateAfter, Visits, LastVisit, CheckpointSealed;
    assert events[..|events|] == events;
    FoldMeant(k, events, |events|);
  }

  // ----- Exactly which logs a reducer gets through -----

  /** The reducer routes the event, takes up the aggregate's state as its own, and answers with one. */
  predicate Answered(r: Reducer, before: seq<Stored>, e: Stored) {
    && r.route(e).Some?
    && var state := StateAfter(r, before, r.route(e).value);
    && state.Some? && r.parse(state.value) == state
    && r.apply(state.value, e).Some? && NewState(r, state.value, e).Some?
  }

  function KeyOf(em: Emission): Option<(Category, string)> {
    if KeyOfBody(em.body).None? then None else Some((em.category, KeyOfBody(em.body).value))
  }

  /** No key is used twice, in one answer or in two. */
  predicate KeysOnce(es: seq<Emission>) {
    forall i, j :: 0 <= i < j < |es| && KeyOf(es[i]).Some? ==> KeyOf(es[i]) != KeyOf(es[j])
  }

  predicate DraftSound(k: Kernel, em: Emission) {
    DraftOk(k, em.category, em.body) && Fits(em.body)
  }

  predicate AllSound(k: Kernel, es: seq<Emission>) {
    forall i :: 0 <= i < |es| ==> DraftSound(k, es[i])
  }

  function AnswerSize(r: Reducer, before: seq<Stored>, e: Stored): nat {
    var t := Answer(r, before, e);
    if t.None? then 0 else |t.value.decisions| + |t.value.jobs| + |t.value.outbox|
  }

  /** Everything the fold asks of a log, in terms of the reducer and its answers. */
  predicate Foldable(k: Kernel, events: seq<Stored>) {
    && (forall n :: 0 <= n < |events| ==>
          Answered(k.reducer, events[..n], events[n]) && AnswerSize(k.reducer, events[..n], events[n]) <= MAX_OUTPUTS)
    && AllSound(k, Emitted(k.reducer, events)) && KeysOnce(Emitted(k.reducer, events))
  }

  /** The outputs on record are sealed for the events at their positions. */
  predicate OutputsSealed(k: Kernel, events: seq<Stored>, os: seq<Output>) {
    forall i :: 0 <= i < |os| ==>
      && 1 <= os[i].inputPosition <= |events| && OutputSealed(k, events[os[i].inputPosition - 1], os[i].aggregateId, os[i])
      && os[i].dedupeKey == KeyOfBody(os[i].body)
  }

  /** The keys on record are those of the outputs on record, each with such an output. */
  ghost predicate KeysMeant(k: Kernel, os: seq<Output>, dedupe: map<Id, Id>) {
    && (forall i :: 0 <= i < |os| && Identity(k, os[i]).Some? ==> Identity(k, os[i]).value in dedupe)
    && (forall x :: x in dedupe ==> exists i :: 0 <= i < |os| && Identity(k, os[i]) == Some(x) && os[i].outputId == dedupe[x])
  }

  lemma {:induction false} KeysUsed(k: Kernel, os: seq<Output>, dedupe: map<Id, Id>, more: seq<Output>)
    requires KeysMeant(k, os, dedupe)
    ensures KeysMeant(k, os + more, UseKeys(k, dedupe, more))
    decreases |more|
  {
    hide Identity;
    if more == [] {
      assert os + more == os;
    } else {
      var front, o := more[..|more| - 1], more[|more| - 1];
      KeysUsed(k, os, dedupe, front);
      assert os + more == (os + front) + [o];
      KeyUsed(k, os + front, UseKeys(k, dedupe, front), o);
    }
  }

  lemma KeyUsed(k: Kernel, os: seq<Output>, dedupe: map<Id, Id>, o: Output)
    requires KeysMeant(k, os, dedupe)
    ensures KeysMeant(k, os + [o], if Identity(k, o).None? then dedupe else dedupe[Identity(k, o).value := o.outputId])
  {
    hide Identity;
    var all, used := os + [o], if Identity(k, o).None? then dedupe else dedupe[Identity(k, o).value := o.outputId];
    forall x | x in used ensures exists i :: 0 <= i < |all| && Identity(k, all[i]) == Some(x) && all[i].outputId == used[x] {
      if Identity(k, o) == Some(x) {
        assert all[|os|] == o;
      } else {
        var i :| 0 <= i < |os| && Identity(k, os[i]) == Some(x) && os[i].outputId == dedupe[x];
        assert all[i] == os[i];
      }
    }
  }

  lemma SealedNext(k: Kernel, events: seq<Stored>, e: Stored, os: seq<Output>, a: string, t: Transition)
    requires OutputsSealed(k, events, os) && e.position == |events| + 1
    ensures OutputsSealed(k, events + [e], os + Outputs(k, e, a, t))
  {
    var more := Outputs(k, e, a, t);
    OutputsPlaced(k, e, a, t);
    hide Outputs, OutputSealed, KeyOfBody;
    forall i | 0 <= i < |more|
      ensures more[i].inputPosition == e.position && more[i].aggregateId == a && OutputSealed(k, e, a, more[i])
      ensures more[i].dedupeKey == KeyOfBody(more[i].body) {
      OutputAt(k, e, a, t, i);
      SealedParts(k, e, a, more[i]);
    }
    forall i | 0 <= i < |os| ensures (events + [e])[os[i].inputPosition - 1] == events[os[i].inputPosition - 1] { }
  }

  lemma SealedParts(k: Kernel, e: Stored, a: string, o: Output)
    requires OutputSealed(k, e, a, o)
    ensures o.inputPosition == e.position && o.aggregateId == a && o.runId == k.run.runId
  {
  }

  /** Outputs of two events never have the same identifier. */
  lemma OtherEventOtherId(k: Kernel, events: seq<Stored>, i: nat, j: nat, o: Output, p: Output)
    requires Injective(k.sha) && Chain(k.sha, events) && i < j < |events|
    requires OutputSealed(k, events[i], o.aggregateId, o) && OutputSealed(k, events[j], p.aggregateId, p)
    ensures o.outputId != p.outputId
  {
    ChainAt(k.sha, events, i);
    ChainAt(k.sha, events, j);
    hide Chain;
    if o.outputId == p.outputId { HashesEqual(k, events[i], o.aggregateId, o, events[j], p.aggregateId, p); SameEvent(k.sha, events[i], events[j]); }
  }

  lemma HashesEqual(k: Kernel, d: Stored, a: string, o: Output, e: Stored, b: string, p: Output)
    requires Injective(k.sha) && OutputSealed(k, d, a, o) && OutputSealed(k, e, b, p) && o.outputId == p.outputId
    ensures d.eventHash == e.eventHash
  {
    var x := OutputPre(o.runId, k.run.manifestHash, d.eventHash, a, o.category, o.ordinal, o.bodyHash);
    var y := OutputPre(p.runId, k.run.manifestHash, e.eventHash, b, p.category, p.ordinal, p.bodyHash);
    assert k.sha(x) == k.sha(y);
  }

  lemma SameEvent(sha: Sha, d: Stored, e: Stored)
    requires Injective(sha) && Verified(sha, d, d.previousEventHash) && Verified(sha, e, e.previousEventHash) && d.eventHash == e.eventHash
    ensures d.position == e.position
  {
    assert sha(ChainPre(d.position, d.contentHash, d.previousEventHash)) == sha(ChainPre(e.position, e.contentHash, e.previousEventHash));
  }

  /** Two outputs of a run have one dedupe identity exactly when the emissions have one key. */
  lemma SameKeyExactly(k: Kernel, o: Output, p: Output)
    requires Injective(k.sha) && o.runId == p.runId && o.dedupeKey == KeyOfBody(o.body) && p.dedupeKey == KeyOfBody(p.body)
    ensures Identity(k, o).Some? <==> KeyOf(Plain(o)).Some?
    ensures Identity(k, o).Some? ==> (Identity(k, o) == Identity(k, p) <==> KeyOf(Plain(o)) == KeyOf(Plain(p)))
  {
    if o.dedupeKey.Some? && p.dedupeKey.Some? && Identity(k, o) == Identity(k, p) {
      assert k.sha(DedupePre(o.runId, o.category, o.dedupeKey.value)) == k.sha(DedupePre(p.runId, p.category, p.dedupeKey.value));
    }
  }

  /** What the store holds after a log it got through. */
  ghost predicate Held(k: Kernel, events: seq<Stored>, v: View) {
    && AggregatesMeant(k, events, v.aggregates) && Meant(v.outputs, Emitted(k.reducer, events))
    && OutputsSealed(k, events, v.outputs) && KeysMeant(k, v.outputs, v.dedupe)
  }

  lemma KeysOnceTogether(a: seq<Emission>, b: seq<Emission>)
    ensures KeysOnce(a + b) <==> KeysOnce(a) && KeysOnce(b) && KeysApart(a, b)
  {
    hide KeyOf;
    var s := a + b;
    assert forall i :: 0 <= i < |a| ==> s[i] == a[i];
    assert forall j :: 0 <= j < |b| ==> s[|a| + j] == b[j];
    if KeysOnce(s) {
      forall i, j | 0 <= i < j < |b| && KeyOf(b[i]).Some? ensures KeyOf(b[i]) != KeyOf(b[j]) {
        assert KeyOf(s[|a| + i]) != KeyOf(s[|a| + j]);
      }
    }
  }

  lemma AllSoundTogether(k: Kernel, a: seq<Emission>, b: seq<Emission>)
    ensures AllSound(k, a + b) <==> AllSound(k, a) && AllSound(k, b)
  {
    hide DraftSound;
    var s := a + b;
    assert forall i :: 0 <= i < |a| ==> s[i] == a[i];
    assert forall j :: 0 <= j < |b| ==> s[|a| + j] == b[j];
  }

  /** The reducer's drafts are materialized and fit exactly when each is sound and they are not too many. */
  lemma DraftsExactly(k: Kernel, e: Stored, a: string, t: Transition)
    ensures DraftsOk(k, Decision, t.decisions) && DraftsOk(k, Job, t.jobs) && DraftsOk(k, Outbox, t.outbox) && AllFit(Outputs(k, e, a, t))
            <==> AllSound(k, EmittedBy(e, a, t)) && |EmittedBy(e, a, t)| <= MAX_OUTPUTS
  {
    OutputsMeant(k, e, a, t);
    var os, es := Outputs(k, e, a, t), EmittedBy(e, a, t);
    hide Outputs, DraftOk, Fits;
    AllSoundTogether(k, Listed(e, a, Decision, t.decisions) + Listed(e, a, Job, t.jobs), Listed(e, a, Outbox, t.outbox));
    AllSoundTogether(k, Listed(e, a, Decision, t.decisions), Listed(e, a, Job, t.jobs));
    ListSound(k, e, a, Decision, t.decisions);
    ListSound(k, e, a, Job, t.jobs);
    ListSound(k, e, a, Outbox, t.outbox);
    assert forall i :: 0 <= i < |os| ==> Plain(os[i]) == es[i] && os[i].body == es[i].body;
    assert AllFit(os) <==> |es| <= MAX_OUTPUTS && AllFitting(es);
    AllFittingTogether(Listed(e, a, Decision, t.decisions) + Listed(e, a, Job, t.jobs), Listed(e, a, Outbox, t.outbox));
    AllFittingTogether(Listed(e, a, Decision, t.decisions), Listed(e, a, Job, t.jobs));
  }

  predicate AllFitting(es: seq<Emission>) {
    forall i :: 0 <= i < |es| ==> Fits(es[i].body)
  }

  lemma AllFittingTogether(a: seq<Emission>, b: seq<Emission>)
    ensures AllFitting(a + b) <==> AllFitting(a) && AllFitting(b)
  {
    hide Fits;
    var s := a + b;
    assert forall i :: 0 <= i < |a| ==> s[i] == a[i];
    assert forall j :: 0 <= j < |b| ==> s[|a| + j] == b[j];
  }

  lemma ListSound(k: Kernel, e: Stored, a: string, c: Category, drafts: seq<Body>)
    ensures AllSound(k, Listed(e, a, c, drafts)) <==> DraftsOk(k, c, drafts) && AllFitting(Listed(e, a, c, drafts))
  {
    hide DraftOk, Fits;
    var es := Listed(e, a, c, drafts);
    assert forall i :: 0 <= i < |drafts| ==> (DraftSound(k, es[i]) <==> DraftOk(k, c, drafts[i]) && Fits(es[i].body));
  }

  predicate Keyed(k: Kernel, os: seq<Output>) {
    forall i :: 0 <= i < |os| ==> os[i].dedupeKey == KeyOfBody(os[i].body) && os[i].runId == k.run.runId
  }

  lemma MadeKeyed(k: Kernel, e: Stored, a: string, t: Transition)
    ensures Keyed(k, Outputs(k, e, a, t))
  {
    OutputsPlaced(k, e, a, t);
    var os := Outputs(k, e, a, t);
    hide Outputs, KeyOfBody;
    forall i | 0 <= i < |os| ensures os[i].dedupeKey == KeyOfBody(os[i].body) && os[i].runId == k.run.runId {
      OutputAt(k, e, a, t, i);
      SealedParts(k, e, a, os[i]);
    }
  }

  lemma HeldKeyed(k: Kernel, events: seq<Stored>, os: seq<Output>)
    requires OutputsSealed(k, events, os)
    ensures Keyed(k, os)
  {
    hide KeyOfBody;
    forall i | 0 <= i < |os| ensures os[i].runId == k.run.runId {
      SealedParts(k, events[os[i].inputPosition - 1], os[i].aggregateId, os[i]);
    }
    hide OutputSealed;
  }

  lemma DistinctExactly(k: Kernel, os: seq<Output>, es: seq<Emission>)
    requires Injective(k.sha) && Keyed(k, os) && Meant(os, es)
    ensures DistinctKeys(k, os) <==> KeysOnce(es)
  {
    hide Injective, Identity, KeyOf, Plain, KeyOfBody;
    forall i, j | 0 <= i < |os| && 0 <= j < |os|
      ensures Identity(k, os[i]).Some? <==> KeyOf(es[i]).Some?
      ensures Identity(k, os[i]).Some? ==> (Identity(k, os[i]) == Identity(k, os[j]) <==> KeyOf(es[i]) == KeyOf(es[j])) {
      SameKeyExactly(k, os[i], os[j]);
    }
  }

  /** An output on record and one of a later event: one identity exactly if one key, and never one identifier. */
  predicate Crossed(k: Kernel, o: Output, x: Emission, p: Output, y: Emission) {
    && (Identity(k, o).Some? <==> KeyOf(x).Some?)
    && (Identity(k, o).Some? ==> (Identity(k, o) == Identity(k, p) <==> KeyOf(x) == KeyOf(y)))
    && o.outputId != p.outputId
  }

  predicate AllCrossed(k: Kernel, os: seq<Output>, xs: seq<Emission>, ps: seq<Output>, ys: seq<Emission>) {
    && |os| == |xs| && |ps| == |ys|
    && forall i, j :: 0 <= i < |os| && 0 <= j < |ps| ==> Crossed(k, os[i], xs[i], ps[j], ys[j])
  }

  /** No key of the one list is used in the other. */
  predicate KeysApart(xs: seq<Emission>, ys: seq<Emission>) {
    forall i, j :: 0 <= i < |xs| && 0 <= j < |ys| && KeyOf(xs[i]).Some? ==> KeyOf(xs[i]) != KeyOf(ys[j])
  }

  lemma CrossedAt(k: Kernel, events: seq<Stored>, n: nat, os: seq<Output>, xs: seq<Emission>, ps: seq<Output>, ys: seq<Emission>, i: nat, j: nat)
    requires Injective(k.sha) && Chain(k.sha, events) && n < |events| && i < |os| && j < |ps|
    requires OutputsSealed(k, events[..n], os) && Meant(os, xs) && Keyed(k, ps) && Meant(ps, ys)
    requires OutputSealed(k, events[n], ps[j].aggregateId, ps[j])
    ensures Crossed(k, os[i], xs[i], ps[j], ys[j])
  {
    hide *;
    HeldKeyed(k, events[..n], os);
    KeyedAt(k, os, i);
    KeyedAt(k, ps, j);
    MeantAt(os, xs, i);
    MeantAt(ps, ys, j);
    SameKeyExactly(k, os[i], ps[j]);
    var m := SealedAt(k, events[..n], os, i);
    assert events[..n][m] == events[m];
    OtherEventOtherId(k, events, m, n, os[i], ps[j]);
    CrossedIs(k, os[i], xs[i], ps[j], ys[j]);
  }

  lemma KeyedAt(k: Kernel, os: seq<Output>, i: nat)
    requires Keyed(k, os) && i < |os|
    ensures os[i].runId == k.run.runId && os[i].dedupeKey == KeyOfBody(os[i].body)
  {
    hide KeyOfBody;
  }

  lemma MeantAt(os: seq<Output>, es: seq<Emission>, i: nat)
    requires Meant(os, es) && i < |os|
    ensures i < |es| && Plain(os[i]) == es[i]
  {
    hide Plain;
  }

  lemma SealedAt(k: Kernel, events: seq<Stored>, os: seq<Output>, i: nat) returns (m: nat)
    requires OutputsSealed(k, events, os) && i < |os|
    ensures m < |events| && OutputSealed(k, events[m], os[i].aggregateId, os[i])
  {
    hide OutputSealed;
    m := os[i].inputPosition - 1;
  }

  lemma CrossedIs(k: Kernel, o: Output, x: Emission, p: Output, y: Emission)
    requires Identity(k, o).Some? <==> KeyOf(x).Some?
    requires Identity(k, o).Some? ==> (Identity(k, o) == Identity(k, p) <==> KeyOf(x) == KeyOf(y))
    requires o.outputId != p.outputId
    ensures Crossed(k, o, x, p, y)
  {
    hide Identity, KeyOf;
  }

  /** A key on record is never free for an output of another event. */
  lemma FreeExactly(k: Kernel, events: seq<Stored>, n: nat, v: View, more: seq<Output>, es: seq<Emission>)
    requires Injective(k.sha) && Chain(k.sha, events) && n < |events| && Held(k, events[..n], v)
    requires Keyed(k, more) && Meant(more, es)
    requires forall j :: 0 <= j < |more| ==> OutputSealed(k, events[n], more[j].aggregateId, more[j])
    ensures KeysFree(k, v.dedupe, more) <==> KeysApart(Emitted(k.reducer, events[..n]), es)
  {
    HeldParts(k, events[..n], v);
    hide *;
    var held := Emitted(k.reducer, events[..n]);
    MeantSize(v.outputs, held);
    MeantSize(more, es);
    forall i, j | 0 <= i < |v.outputs| && 0 <= j < |more| ensures Crossed(k, v.outputs[i], held[i], more[j], es[j]) {
      CrossedAt(k, events, n, v.outputs, held, more, es, i, j);
    }
    CrossedAll(k, v.outputs, held, more, es);
    FreeIsApart(k, v.outputs, v.dedupe, held, more, es);
  }

  lemma CrossedAll(k: Kernel, os: seq<Output>, xs: seq<Emission>, ps: seq<Output>, ys: seq<Emission>)
    requires |os| == |xs| && |ps| == |ys|
    requires forall i, j :: 0 <= i < |os| && 0 <= j < |ps| ==> Crossed(k, os[i], xs[i], ps[j], ys[j])
    ensures AllCrossed(k, os, xs, ps, ys)
  {
    hide Crossed;
  }

  lemma KeyHolder(k: Kernel, os: seq<Output>, dedupe: map<Id, Id>, x: Id)
    requires KeysMeant(k, os, dedupe) && x in dedupe
    ensures exists h :: 0 <= h < |os| && Identity(k, os[h]) == Some(x) && os[h].outputId == dedupe[x]
  {
  }

  lemma FreeIsApart(k: Kernel, os: seq<Output>, dedupe: map<Id, Id>, xs: seq<Emission>, ps: seq<Output>, ys: seq<Emission>)
    requires KeysMeant(k, os, dedupe) && AllCrossed(k, os, xs, ps, ys)
    ensures KeysFree(k, dedupe, ps) <==> KeysApart(xs, ys)
  {
    hide Identity, KeyOf;
    if KeysFree(k, dedupe, ps) {
      forall i, j | 0 <= i < |xs| && 0 <= j < |ys| && KeyOf(xs[i]).Some? ensures KeyOf(xs[i]) != KeyOf(ys[j]) {
        assert Crossed(k, os[i], xs[i], ps[j], ys[j]);
        KeyHolder(k, os, dedupe, Identity(k, os[i]).value);
        assert forall h :: 0 <= h < |os| ==> Crossed(k, os[h], xs[h], ps[j], ys[j]);
      }
    } else {
      var j :| 0 <= j < |ps| && Identity(k, ps[j]).Some? && Identity(k, ps[j]).value in dedupe && dedupe[Identity(k, ps[j]).value] != ps[j].outputId;
      KeyHolder(k, os, dedupe, Identity(k, ps[j]).value);
      var h :| 0 <= h < |os| && Identity(k, os[h]) == Some(Identity(k, ps[j]).value) && os[h].outputId == dedupe[Identity(k, ps[j]).value];
      assert Crossed(k, os[h], xs[h], ps[j], ys[j]);
    }
  }

  /** An event is produced for exactly when the reducer answers it and its answer can be materialized. */
  lemma ProduceExactly(k: Kernel, before: seq<Stored>, v: View, e: Stored)
    requires Injective(k.sha) && AggregatesMeant(k, before, v.aggregates)
    ensures Produce(k, v, e).Some? <==>
              Answered(k.reducer, before, e) && Producible(k, e, k.reducer.route(e).value, Answer(k.reducer, before, e).value)
  {
    hide Recognized, Prior, StateAfter, Visits, LastVisit, Producible, Outputs, NextCursor, AggregatesMeant;
    if k.reducer.route(e).Some? { StateBefore(k, before, v, k.reducer.route(e).value); }
  }

  /** One more event is taken exactly when the reducer answers it soundly, under keys never used before. */
  lemma AdvanceExactly(k: Kernel, events: seq<Stored>, n: nat, v: View)
    requires Injective(k.sha) && Chain(k.sha, events) && n < |events| && Held(k, events[..n], v) && KeysOnce(Emitted(k.reducer, events[..n]))
    ensures Advance(k, v, events[n]).Some? <==>
              && Answered(k.reducer, events[..n], events[n]) && AnswerSize(k.reducer, events[..n], events[n]) <= MAX_OUTPUTS
              && var es := EmittedBy(events[n], k.reducer.route(events[n]).value, Answer(k.reducer, events[..n], events[n]).value);
                 AllSound(k, es) && KeysOnce(Emitted(k.reducer, events[..n]) + es)
  {
    hide *;
    var before, e := events[..n], events[n];
    HeldParts(k, before, v);
    ProduceExactly(k, before, v, e);
    if Answered(k.reducer, before, e) {
      AnsweredParts(k.reducer, before, e);
      var a, t := k.reducer.route(e).value, Answer(k.reducer, before, e).value;
      var os, es := Outputs(k, e, a, t), EmittedBy(e, a, t);
      ProducibleIs(k, e, a, t);
      DraftsExactly(k, e, a, t);
      OutputsMeant(k, e, a, t);
      MadeKeyed(k, e, a, t);
      DistinctExactly(k, os, es);
      MadeSealed(k, e, a, t);
      FreeExactly(k, events, n, v, os, es);
      KeysOnceTogether(Emitted(k.reducer, before), es);
      MeantSize(v.outputs, Emitted(k.reducer, before));
      if Produce(k, v, e).Some? { ProducedMeant(k, before, v, e); AdvanceParts(k, v, e); }
    }
    AdvanceNeeds(k, v, e);
  }

  lemma HeldParts(k: Kernel, events: seq<Stored>, v: View)
    requires Held(k, events, v)
    ensures AggregatesMeant(k, events, v.aggregates) && Meant(v.outputs, Emitted(k.reducer, events)) && OutputsSealed(k, events, v.outputs)
    ensures KeysMeant(k, v.outputs, v.dedupe)
  {
    hide AggregatesMeant, Meant, Emitted, OutputsSealed, KeysMeant;
  }

  lemma MeantSize(os: seq<Output>, es: seq<Emission>)
    requires Meant(os, es)
    ensures |os| == |es|
  {
  }

  lemma AnsweredParts(r: Reducer, before: seq<Stored>, e: Stored)
    requires Answered(r, before, e)
    ensures r.route(e).Some? && Answer(r, before, e).Some?
    ensures AnswerSize(r, before, e) == |EmittedBy(e, r.route(e).value, Answer(r, before, e).value)|
  {
    hide StateAfter;
  }

  lemma ProducibleIs(k: Kernel, e: Stored, a: string, t: Transition)
    ensures Producible(k, e, a, t) <==>
              DraftsOk(k, Decision, t.decisions) && DraftsOk(k, Job, t.jobs) && DraftsOk(k, Outbox, t.outbox) && DistinctKeys(k, Outputs(k, e, a, t))
  {
    hide DraftsOk, DistinctKeys, Outputs;
  }

  lemma MadeSealed(k: Kernel, e: Stored, a: string, t: Transition)
    ensures forall j :: 0 <= j < |Outputs(k, e, a, t)| ==> OutputSealed(k, e, Outputs(k, e, a, t)[j].aggregateId, Outputs(k, e, a, t)[j])
  {
    OutputsPlaced(k, e, a, t);
    var os := Outputs(k, e, a, t);
    hide Outputs, OutputSealed;
    forall j | 0 <= j < |os| ensures OutputSealed(k, e, os[j].aggregateId, os[j]) {
      OutputAt(k, e, a, t, j);
      SealedParts(k, e, a, os[j]);
    }
  }

  lemma {:induction false} FoldHeld(k: Kernel, events: seq<Stored>, n: nat)
    requires Injective(k.sha) && Chain(k.sha, events) && n <= |events|
    ensures Folded(k, events[..n]).Some? <==> Foldable(k, events[..n])
    ensures Folded(k, events[..n]).Some? ==> Held(k, events[..n], Folded(k, events[..n]).value)
  {
    hide *;
    if n == 0 {
      StartMeant(k, events);
      StartHeld(k, events);
    } else {
      FoldHeld(k, events, n - 1);
      FoldableNext(k, events, n - 1);
      assert events[..n - 1] + [events[n - 1]] == events[..n];
      if Folded(k, events[..n]).Some? { PrefixFolded(k, events, n - 1, n); }
      if Folded(k, events[..n - 1]).Some? {
        var v, e := Folded(k, events[..n - 1]).value, events[n - 1];
        FoldedNext(k, events, n - 1);
        FoldableParts(k, events[..n - 1]);
        AdvanceExactly(k, events, n - 1, v);
        if Answered(k.reducer, events[..n - 1], e) { AnsweredParts(k.reducer, events[..n - 1], e); }
        if Advance(k, v, e).Some? { HeldNext(k, events, n - 1, v); }
      }
    }
  }

  lemma FoldableParts(k: Kernel, events: seq<Stored>)
    requires Foldable(k, events)
    ensures KeysOnce(Emitted(k.reducer, events)) && AllSound(k, Emitted(k.reducer, events))
  {
    hide Answered, AnswerSize, AllSound, KeysOnce, Emitted;
  }

  lemma StartHeld(k: Kernel, events: seq<Stored>)
    ensures Foldable(k, events[..0]) && Held(k, events[..0], EMPTY_VIEW)
  {
    assert events[..0] == [];
  }

  lemma FoldableNext(k: Kernel, events: seq<Stored>, n: nat)
    requires n < |events|
    ensures Foldable(k, events[..n + 1]) <==>
              && Foldable(k, events[..n])
              && Answered(k.reducer, events[..n], events[n]) && AnswerSize(k.reducer, events[..n], events[n]) <= MAX_OUTPUTS
              && var es := EmittedBy(events[n], k.reducer.route(events[n]).value, Answer(k.reducer, events[..n], events[n]).value);
                 AllSound(k, es) && KeysOnce(Emitted(k.reducer, events[..n]) + es)
  {
    hide Answered, AnswerSize, AllSound, KeysOnce, EmittedBy, Emitted, Answer;
    var all, e := events[..n + 1], events[n];
    assert all == events[..n] + [e];
    assert forall i :: 0 <= i <= n ==> all[..i] == events[..i];
    assert forall i :: 0 <= i < n ==> events[..n][..i] == events[..i];
    EmittedMore(k.reducer, events[..n], e);
    if Answered(k.reducer, events[..n], e) {
      AnsweredParts(k.reducer, events[..n], e);
      var es := EmittedBy(e, k.reducer.route(e).value, Answer(k.reducer, events[..n], e).value);
      KeysOnceTogether(Emitted(k.reducer, events[..n]), es);
      AllSoundTogether(k, Emitted(k.reducer, events[..n]), es);
    }
    if Foldable(k, all) { assert Answered(k.reducer, all[..n], all[n]); FoldableFront(k, events, n); }
  }

  lemma FoldableFront(k: Kernel, events: seq<Stored>, n: nat)
    requires n < |events|
    ensures Foldable(k, events[..n + 1]) ==> forall i :: 0 <= i < n ==>
              Answered(k.reducer, events[..i], events[i]) && AnswerSize(k.reducer, events[..i], events[i]) <= MAX_OUTPUTS
  {
    hide Answered, AnswerSize, AllSound, KeysOnce, EmittedBy, Emitted, Answer;
    var all := events[..n + 1];
    if Foldable(k, all) {
      forall i | 0 <= i < n
        ensures Answered(k.reducer, events[..i], events[i]) && AnswerSize(k.reducer, events[..i], events[i]) <= MAX_OUTPUTS {
        assert all[..i] == events[..i] && all[i] == events[i];
      }
    }
  }

  lemma HeldNext(k: Kernel, events: seq<Stored>, n: nat, v: View)
    requires Injective(k.sha) && Chain(k.sha, events) && n < |events| && Held(k, events[..n], v) && Advance(k, v, events[n]).Some?
    ensures Held(k, events[..n + 1], Advance(k, v, events[n]).value)
  {
    hide *;
    var before, e := events[..n], events[n];
    assert before + [e] == events[..n + 1];
    HeldParts(k, before, v);
    AdvanceIs(k, v, e);
    var c := Produce(k, v, e).value;
    AcceptIs(k, v, c);
    ProducedMeant(k, before, v, e);
    AggregatesNext(k, before, v, e, c.aggregate);
    EmittedMore(k.reducer, before, e);
    var a, t := k.reducer.route(e).value, Answer(k.reducer, before, e).value;
    MeantTogether(v.outputs, Emitted(k.reducer, before), c.outputs, EmittedBy(e, a, t));
    ChainAt(k.sha, events, n);
    SealedNext(k, before, e, v.outputs, a, t);
    KeysUsed(k, v.outputs, v.dedupe, c.outputs);
    HeldAgain(k, before + [e], Advance(k, v, e).value);
  }

  lemma HeldAgain(k: Kernel, events: seq<Stored>, v: View)
    requires AggregatesMeant(k, events, v.aggregates) && Meant(v.outputs, Emitted(k.reducer, events)) && OutputsSealed(k, events, v.outputs)
    requires KeysMeant(k, v.outputs, v.dedupe)
    ensures Held(k, events, v)
  {
    hide AggregatesMeant, Meant, Emitted, OutputsSealed, KeysMeant;
  }

  /**
    A reducer gets through a log exactly when it answers every event soundly, takes its own states for what
    they are, and never uses a key twice.
   */
  lemma FoldsExactly(k: Kernel, events: seq<Stored>)
    requires Injective(k.sha) && Chain(k.sha, events)
    ensures Folded(k, events).Some? <==> Foldable(k, events)
  {
    hide *;
    assert events[..|events|] == events;
    FoldHeld(k, events, |events|);
  }
}
