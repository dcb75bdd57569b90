/**
  The deterministic processor, as values: what one event produces, what the checker of a commit
  demands, and the plain left fold both of them are about.
 */
module Processor {
  import opened Base
  import opened Events

  const MAX_TEXT: nat := 512
  const MAX_OUTPUTS: nat := 100_000

  datatype Run = Run(runId: string, manifestHash: Id, behaviorHash: Id, reducerName: string, reducerVersion: string)

  datatype Transition = Transition(state: string, decisions: seq<Body>, jobs: seq<Body>, outbox: seq<Body>)

  /** The reducer's functions; `None` where one throws. The configuration is fixed for a run. */
  datatype Reducer = Reducer(
    route: Stored -> Option<string>, initial: string -> Option<string>, parse: string -> Option<string>,
    apply: (string, Stored) -> Option<Transition>)

  datatype Kernel = Kernel(sha: Sha, run: Run, reducer: Reducer)

  datatype Cursor = Cursor(
    runId: string, manifestHash: Id, behaviorHash: Id, processed: nat, logicalAtMs: nat, lastEventHash: Id,
    stateHead: Id, decisionHead: Id, cursorHash: Id)

  datatype Checkpoint = Checkpoint(
    runId: string, aggregateId: string, version: nat, lastInput: nat, state: string, stateHash: Id, checkpointHash: Id)

  datatype Output = Output(
    outputId: Id, runId: string, inputEventId: Id, inputPosition: nat, aggregateId: string, category: Category,
    ordinal: nat, dedupeKey: Option<string>, notBeforeLogicalMs: Option<int>, body: Body, bodyHash: Id)

  datatype Commit = Commit(expectedPosition: nat, event: Stored, cursor: Cursor, aggregate: Checkpoint, outputs: seq<Output>)

  /** What a store holds for a run. */
  datatype View = View(
    cursor: Option<Cursor>, aggregates: map<string, Checkpoint>, outputs: seq<Output>, dedupe: map<Id, Id>)

  const EMPTY_VIEW := View(None, map[], [], map[])

  // ----- Sealed records -----

  function SealCursor(k: Kernel, processed: nat, logicalAtMs: nat, lastEvent: Id, stateHead: Id, decisionHead: Id): Cursor {
    Cursor(k.run.runId, k.run.manifestHash, k.run.behaviorHash, processed, logicalAtMs, lastEvent, stateHead, decisionHead,
           k.sha(CursorPre(k.run.runId, k.run.manifestHash, k.run.behaviorHash, processed, logicalAtMs, lastEvent, stateHead, decisionHead)))
  }

  function GenesisCursor(k: Kernel): Cursor {
    SealCursor(k, 0, 0, GENESIS_HASH, k.sha(StateGenesisPre(k.run.behaviorHash)), k.sha(DecisionGenesisPre(k.run.behaviorHash)))
  }

  predicate CursorSealed(k: Kernel, c: Cursor) {
    c == SealCursor(k, c.processed, c.logicalAtMs, c.lastEventHash, c.stateHead, c.decisionHead)
  }

  function SealCheckpoint(k: Kernel, aggregate: string, version: nat, lastInput: nat, state: string): Checkpoint {
    var stateHash := k.sha(StatePre(k.run.reducerName, k.run.reducerVersion, state));
    Checkpoint(k.run.runId, aggregate, version, lastInput, state, stateHash,
               k.sha(CheckpointPre(k.run.runId, aggregate, version, lastInput, stateHash)))
  }

  predicate CheckpointSealed(k: Kernel, c: Checkpoint) {
    c == SealCheckpoint(k, c.aggregateId, c.version, c.lastInput, c.state)
  }

  function Current(k: Kernel, v: View): Cursor {
    if v.cursor.None? then GenesisCursor(k) else v.cursor.value
  }

  // ----- Producing outputs -----

  function KeyOfBody(b: Body): Option<string> {
    match b
    case DecisionBody(_, _) => None
    case JobBody(_, _, key, _, _, _) => Some(key)
    case MessageBody(_, _, key, _) => Some(key)
  }

  function NotBefore(b: Body): Option<int> {
    if b.JobBody? then Some(b.notBeforeLogicalMs) else None
  }

  predicate InCategory(c: Category, b: Body) {
    match c
    case Decision => b.DecisionBody?
    case Job => b.JobBody?
    case Outbox => b.MessageBody?
  }

  /** Identifiers derived from the run, the key and the payload. */
  predicate IdsDerived(k: Kernel, b: Body) {
    match b
    case DecisionBody(_, _) => true
    case JobBody(id, _, key, _, _, payload) => id == k.sha(JobPre(k.run.runId, key, payload))
    case MessageBody(id, _, key, payload) => id == k.sha(MessagePre(k.run.runId, key, payload))
  }

  /** What the producer asks of a draft: names are not empty, times are sane, identifiers are derived. */
  predicate DraftOk(k: Kernel, c: Category, b: Body) {
    && InCategory(c, b) && IdsDerived(k, b)
    && match b
       case DecisionBody(kind, _) => kind != ""
       case JobBody(_, kind, key, notBefore, _, _) => kind != "" && key != "" && 0 <= notBefore <= MAX_SAFE
       case MessageBody(_, topic, key, _) => topic != "" && key != ""
  }

  /** What the persisted schema adds: names are at most 512 characters long. */
  predicate Fits(b: Body) {
    match b
    case DecisionBody(kind, _) => |kind| <= MAX_TEXT
    case JobBody(_, kind, key, _, _, _) => |kind| <= MAX_TEXT && |key| <= MAX_TEXT
    case MessageBody(_, topic, key, _) => |topic| <= MAX_TEXT && |key| <= MAX_TEXT
  }

  function Make(k: Kernel, e: Stored, aggregate: string, c: Category, ordinal: nat, b: Body): Output {
    var bodyHash := k.sha(BodyPre(b));
    Output(k.sha(OutputPre(k.run.runId, k.run.manifestHash, e.eventHash, aggregate, c, ordinal, bodyHash)),
           k.run.runId, e.captured.eventId, e.position, aggregate, c, ordinal, KeyOfBody(b), NotBefore(b), b, bodyHash)
  }

  function Group(k: Kernel, e: Stored, aggregate: string, c: Category, drafts: seq<Body>): (r: seq<Output>)
    ensures |r| == |drafts|
    ensures forall i :: 0 <= i < |r| ==> r[i] == Make(k, e, aggregate, c, i, drafts[i])
  {
    seq(|drafts|, i requires 0 <= i < |drafts| => Make(k, e, aggregate, c, i, drafts[i]))
  }

  /** Decisions, then jobs, then messages. */
  function Outputs(k: Kernel, e: Stored, aggregate: string, t: Transition): seq<Output> {
    Group(k, e, aggregate, Decision, t.decisions) + Group(k, e, aggregate, Job, t.jobs)
    + Group(k, e, aggregate, Outbox, t.outbox)
  }

  function Identity(k: Kernel, o: Output): Option<Id> {
    if o.dedupeKey.None? then None else Some(k.sha(DedupePre(o.runId, o.category, o.dedupeKey.value)))
  }

  predicate DistinctKeys(k: Kernel, os: seq<Output>) {
    forall i, j :: 0 <= i < j < |os| && Identity(k, os[i]).Some? ==> Identity(k, os[i]) != Identity(k, os[j])
  }

  predicate DraftsOk(k: Kernel, c: Category, drafts: seq<Body>) {
    forall i :: 0 <= i < |drafts| ==> DraftOk(k, c, drafts[i])
  }

  /** The transition's outputs can be materialized. */
  predicate Producible(k: Kernel, e: Stored, aggregate: string, t: Transition) {
    && DraftsOk(k, Decision, t.decisions) && DraftsOk(k, Job, t.jobs) && DraftsOk(k, Outbox, t.outbox)
    && DistinctKeys(k, Outputs(k, e, aggregate, t))
  }

  /** The outputs of one commit fit the persisted schema. */
  predicate AllFit(os: seq<Output>) {
    |os| <= MAX_OUTPUTS && forall i :: 0 <= i < |os| ==> Fits(os[i].body)
  }

  // ----- The fold -----

  function Semantics(os: seq<Output>): (r: seq<Semantic>)
    ensures |r| == |os|
    ensures forall i :: 0 <= i < |r| ==> r[i] == Semantic(os[i].category, os[i].ordinal, os[i].body, os[i].bodyHash)
  {
    seq(|os|, i requires 0 <= i < |os| => Semantic(os[i].category, os[i].ordinal, os[i].body, os[i].bodyHash))
  }

  function NextCursor(k: Kernel, previous: Cursor, e: Stored, aggregate: Checkpoint, os: seq<Output>): Cursor {
    SealCursor(k, e.position, e.captured.logicalAtMs, e.eventHash,
               k.sha(StateStepPre(previous.stateHead, e.eventHash, aggregate.aggregateId, aggregate.stateHash)),
               k.sha(DecisionStepPre(previous.decisionHead, e.eventHash, Semantics(os))))
  }

  /** The checkpoint an event is applied after: the stored one, or the genesis of a new aggregate. */
  function Prior(k: Kernel, v: View, aggregate: string): Option<Checkpoint> {
    if aggregate in v.aggregates then Some(v.aggregates[aggregate])
    else
      var initial := k.reducer.initial(aggregate);
      var state := if initial.None? then None else k.reducer.parse(initial.value);
      if state.None? then None else Some(SealCheckpoint(k, aggregate, 0, 0, state.value))
  }

  /** The state of a checkpoint as the reducer parses it, when the checkpoint's hashes still speak of it. */
  function Recognized(k: Kernel, c: Checkpoint): Option<string> {
    var state := k.reducer.parse(c.state);
    if state.None? || !CheckpointSealed(k, c.(state := state.value)) then None else state
  }

  /** Keys of a run are used once: a later output under the same key is refused. */
  predicate KeysFree(k: Kernel, dedupe: map<Id, Id>, os: seq<Output>) {
    forall i :: 0 <= i < |os| && Identity(k, os[i]).Some? && Identity(k, os[i]).value in dedupe
      ==> dedupe[Identity(k, os[i]).value] == os[i].outputId
  }

  function UseKeys(k: Kernel, dedupe: map<Id, Id>, os: seq<Output>): map<Id, Id> {
    if os == [] then dedupe
    else
      var rest := UseKeys(k, dedupe, os[..|os| - 1]);
      var o := os[|os| - 1];
      if Identity(k, o).None? then rest else rest[Identity(k, o).value := o.outputId]
  }

  function Accept(k: Kernel, v: View, cursor: Cursor, aggregate: Checkpoint, os: seq<Output>): View {
    View(Some(cursor), v.aggregates[aggregate.aggregateId := aggregate], v.outputs + os, UseKeys(k, v.dedupe, os))
  }

  /** What the reducer makes of an event: the commit it asks for, whatever the store then says. */
  function Produce(k: Kernel, v: View, e: Stored): Option<Commit> {
    var aggregate := k.reducer.route(e);
    var prior := if aggregate.None? then None else Prior(k, v, aggregate.value);
    var before := if prior.None? then None else Recognized(k, prior.value);
    if before.None? then None
    else
      var t := k.reducer.apply(before.value, e);
      var state := if t.None? then None else k.reducer.parse(t.value.state);
      if state.None? || !Producible(k, e, aggregate.value, t.value) then None
      else
        var next := SealCheckpoint(k, aggregate.value, prior.value.version + 1, e.position, state.value);
        var os := Outputs(k, e, aggregate.value, t.value);
        Some(Commit(Current(k, v).processed, e, NextCursor(k, Current(k, v), e, next, os), next, os))
  }

  /** One step of the fold. */
  function Advance(k: Kernel, v: View, e: Stored): Option<View> {
    var c := Produce(k, v, e);
    if c.None? || !AllFit(c.value.outputs) || !KeysFree(k, v.dedupe, c.value.outputs) then None
    else Some(Accept(k, v, c.value.cursor, c.value.aggregate, c.value.outputs))
  }

  /** The left fold of the reducer over the log. */
  function Folded(k: Kernel, events: seq<Stored>): Option<View> {
    Fold((v: View, e: Stored) => Advance(k, v, e), EMPTY_VIEW, events)
  }

  // ----- What the checker of a commit demands -----

  function Rank(c: Category): nat {
    match c
    case Decision => 0
    case Job => 1
    case Outbox => 2
  }

  function CountOf(os: seq<Output>, c: Category): nat {
    if os == [] then 0 else CountOf(os[..|os| - 1], c) + (if os[|os| - 1].category == c then 1 else 0)
  }

  /** Body, identifiers and delivery metadata of one stored output. */
  predicate BodyValid(k: Kernel, o: Output) {
    && InCategory(o.category, o.body) && IdsDerived(k, o.body) && Fits(o.body)
    && o.dedupeKey == KeyOfBody(o.body) && o.notBeforeLogicalMs == NotBefore(o.body)
    && match o.body
       case DecisionBody(kind, _) => kind != ""
       case JobBody(_, kind, key, notBefore, _, _) => kind != "" && key != "" && 0 <= notBefore <= MAX_SAFE
       case MessageBody(_, topic, key, _) => topic != "" && key != ""
  }

  predicate OutputSealed(k: Kernel, e: Stored, aggregate: string, o: Output) {
    && o.runId == k.run.runId && o.inputEventId == e.captured.eventId && o.inputPosition == e.position
    && o.aggregateId == aggregate
    && o.bodyHash == k.sha(BodyPre(o.body))
    && o.outputId == k.sha(OutputPre(o.runId, k.run.manifestHash, e.eventHash, aggregate, o.category, o.ordinal, o.bodyHash))
  }

  /** Output `i` is in category order, in ordinal order, new, and is what it says it is. */
  predicate OutputChecked(k: Kernel, e: Stored, aggregate: string, os: seq<Output>, i: nat)
    requires i < |os|
  {
    && (i > 0 ==> Rank(os[i - 1].category) <= Rank(os[i].category))
    && os[i].ordinal == CountOf(os[..i], os[i].category)
    && (forall j :: 0 <= j < i ==> os[j].outputId != os[i].outputId)
    && OutputSealed(k, e, aggregate, os[i]) && BodyValid(k, os[i])
    && (Identity(k, os[i]).Some? ==> forall j :: 0 <= j < i ==> Identity(k, os[j]) != Identity(k, os[i]))
  }

  predicate OutputsChecked(k: Kernel, e: Stored, aggregate: string, os: seq<Output>) {
    |os| <= MAX_OUTPUTS && forall i :: 0 <= i < |os| ==> OutputChecked(k, e, aggregate, os, i)
  }

  /** `verifyProcessingCommit`: a commit by itself. */
  predicate CommitChecked(k: Kernel, c: Commit) {
    && Verified(k.sha, c.event, c.event.previousEventHash)
    && CursorSealed(k, c.cursor)
    && c.cursor.processed == c.event.position && c.cursor.logicalAtMs == c.event.captured.logicalAtMs
    && c.cursor.lastEventHash == c.event.eventHash
    && CheckpointSealed(k, c.aggregate) && c.aggregate.lastInput == c.event.position && c.aggregate.version > 0
    && OutputsChecked(k, c.event, c.aggregate.aggregateId, c.outputs)
  }

  /** `verifyProcessingTransition`: a commit after the cursor that precedes it. */
  predicate TransitionChecked(k: Kernel, c: Commit, previous: Cursor) {
    && CommitChecked(k, c)
    && CursorSealed(k, previous) && (previous.processed == 0 ==> previous == GenesisCursor(k))
    && c.expectedPosition == previous.processed && c.event.position == previous.processed + 1
    && c.event.previousEventHash == previous.lastEventHash
    && previous.logicalAtMs <= c.event.captured.logicalAtMs
    && c.cursor.stateHead
         == k.sha(StateStepPre(previous.stateHead, c.event.eventHash, c.aggregate.aggregateId, c.aggregate.stateHash))
    && c.cursor.decisionHead == k.sha(DecisionStepPre(previous.decisionHead, c.event.eventHash, Semantics(c.outputs)))
  }

  // ----- Producer meets checker -----

  /** Where an output stands among all of a transition's outputs. */
  predicate Placed(k: Kernel, e: Stored, aggregate: string, t: Transition, os: seq<Output>, i: nat)
    requires i < |os|
  {
    var d, j := |t.decisions|, |t.jobs|;
    if i < d then os[i] == Make(k, e, aggregate, Decision, i, t.decisions[i])
    else if i < d + j then os[i] == Make(k, e, aggregate, Job, i - d, t.jobs[i - d])
    else i - d - j < |t.outbox| && os[i] == Make(k, e, aggregate, Outbox, i - d - j, t.outbox[i - d - j])
  }

  lemma OutputsPlaced(k: Kernel, e: Stored, aggregate: string, t: Transition)
    ensures var os := Outputs(k, e, aggregate, t);
            && |os| == |t.decisions| + |t.jobs| + |t.outbox|
            && forall i :: 0 <= i < |os| ==> Placed(k, e, aggregate, t, os, i)
  {
    hide Make;
  }

  lemma MakeIs(k: Kernel, e: Stored, aggregate: string, c: Category, ordinal: nat, b: Body)
    ensures var o := Make(k, e, aggregate, c, ordinal, b);
            o.category == c && o.ordinal == ordinal && o.body == b && OutputSealed(k, e, aggregate, o)
            && o.dedupeKey == KeyOfBody(b) && o.notBeforeLogicalMs == NotBefore(b)
  {
  }

  /** The category and ordinal an output has by its place. */
  function PlaceOf(t: Transition, i: nat): (Category, nat) {
    var d, j := |t.decisions|, |t.jobs|;
    if i < d then (Decision, i) else if i < d + j then (Job, i - d) else (Outbox, i - d - j)
  }

  function BodyAt(t: Transition, i: nat): Body
    requires i < |t.decisions| + |t.jobs| + |t.outbox|
  {
    var d, j := |t.decisions|, |t.jobs|;
    if i < d then t.decisions[i] else if i < d + j then t.jobs[i - d] else t.outbox[i - d - j]
  }

  lemma OutputAt(k: Kernel, e: Stored, aggregate: string, t: Transition, i: nat)
    requires i < |t.decisions| + |t.jobs| + |t.outbox|
    ensures |Outputs(k, e, aggregate, t)| == |t.decisions| + |t.jobs| + |t.outbox|
    ensures var o := Outputs(k, e, aggregate, t)[i];
            && o.category == PlaceOf(t, i).0 && o.ordinal == PlaceOf(t, i).1 && o.body == BodyAt(t, i)
            && o.dedupeKey == KeyOfBody(o.body) && o.notBeforeLogicalMs == NotBefore(o.body)
            && OutputSealed(k, e, aggregate, o)
  {
    OutputsPlaced(k, e, aggregate, t);
    var os := Outputs(k, e, aggregate, t);
    assert Placed(k, e, aggregate, t, os, i);
    hide Outputs, OutputSealed, KeyOfBody, NotBefore, Make;
    var (c, n) := PlaceOf(t, i);
    MakeIs(k, e, aggregate, c, n, BodyAt(t, i));
  }

  /** Counting the outputs of a category that stand before place `i`. */
  function CountBefore(t: Transition, i: nat, c: Category): nat {
    var d, j := |t.decisions|, |t.jobs|;
    match c
    case Decision => if i < d then i else d
    case Job => if i < d then 0 else if i < d + j then i - d else j
    case Outbox => if i < d + j then 0 else i - d - j
  }

  lemma {:induction false} CountAt(k: Kernel, e: Stored, aggregate: string, t: Transition, i: nat, c: Category)
    requires i <= |Outputs(k, e, aggregate, t)| == |t.decisions| + |t.jobs| + |t.outbox|
    ensures CountOf(Outputs(k, e, aggregate, t)[..i], c) == CountBefore(t, i, c)
    decreases i
  {
    hide Outputs, OutputSealed, KeyOfBody, NotBefore;
    if i > 0 {
      var os := Outputs(k, e, aggregate, t);
      CountAt(k, e, aggregate, t, i - 1, c);
      OutputAt(k, e, aggregate, t, i - 1);
      assert os[..i][..i - 1] == os[..i - 1] && os[..i][i - 1] == os[i - 1];
    }
  }

  /** Sealed outputs under the same identifier have the same place. */
  lemma SameIdSamePlace(k: Kernel, e: Stored, aggregate: string, o: Output, p: Output)
    requires Injective(k.sha) && OutputSealed(k, e, aggregate, o) && OutputSealed(k, e, aggregate, p) && o.outputId == p.outputId
    ensures o.category == p.category && o.ordinal == p.ordinal && o.bodyHash == p.bodyHash
  {
    var x := OutputPre(o.runId, k.run.manifestHash, e.eventHash, aggregate, o.category, o.ordinal, o.bodyHash);
    var y := OutputPre(p.runId, k.run.manifestHash, e.eventHash, aggregate, p.category, p.ordinal, p.bodyHash);
    assert k.sha(x) == k.sha(y);
  }

  lemma DraftAt(k: Kernel, e: Stored, aggregate: string, t: Transition, i: nat)
    requires Producible(k, e, aggregate, t) && i < |t.decisions| + |t.jobs| + |t.outbox|
    ensures DraftOk(k, PlaceOf(t, i).0, BodyAt(t, i))
  {
    hide DraftOk, Outputs, DistinctKeys;
  }

  lemma BodyValidIs(k: Kernel, o: Output)
    requires o.dedupeKey == KeyOfBody(o.body) && o.notBeforeLogicalMs == NotBefore(o.body) && DraftOk(k, o.category, o.body)
    ensures BodyValid(k, o) <==> Fits(o.body)
  {
    hide IdsDerived, Fits;
  }

  lemma OutputMeetsChecker(k: Kernel, e: Stored, aggregate: string, t: Transition, i: nat)
    requires Injective(k.sha) && Producible(k, e, aggregate, t) && i < |t.decisions| + |t.jobs| + |t.outbox|
    requires |Outputs(k, e, aggregate, t)| == |t.decisions| + |t.jobs| + |t.outbox|
    ensures OutputChecked(k, e, aggregate, Outputs(k, e, aggregate, t), i) <==> Fits(BodyAt(t, i))
  {
    var os := Outputs(k, e, aggregate, t);
    assert DistinctKeys(k, os);
    hide Outputs, Producible, DraftOk, OutputSealed, BodyValid, Fits, KeyOfBody, NotBefore, Identity;
    OutputAt(k, e, aggregate, t, i);
    CountAt(k, e, aggregate, t, i, PlaceOf(t, i).0);
    DraftAt(k, e, aggregate, t, i);
    BodyValidIs(k, os[i]);
    if i > 0 { OutputAt(k, e, aggregate, t, i - 1); }
    forall j | 0 <= j < i ensures os[j].outputId != os[i].outputId {
      OutputAt(k, e, aggregate, t, j);
      if os[j].outputId == os[i].outputId { SameIdSamePlace(k, e, aggregate, os[j], os[i]); }
    }
  }

  /** Everything the producer materializes passes the checker, unless a name is too long or the outputs too many for the schema. */
  lemma OutputsMeetChecker(k: Kernel, e: Stored, aggregate: string, t: Transition)
    requires Injective(k.sha) && Producible(k, e, aggregate, t)
    ensures OutputsChecked(k, e, aggregate, Outputs(k, e, aggregate, t)) <==> AllFit(Outputs(k, e, aggregate, t))
  {
    OutputsPlaced(k, e, aggregate, t);
    var os := Outputs(k, e, aggregate, t);
    hide Outputs, Producible, OutputChecked, Fits, Injective;
    forall i | 0 <= i < |os| ensures OutputChecked(k, e, aggregate, os, i) <==> Fits(os[i].body) {
      OutputMeetsChecker(k, e, aggregate, t, i);
      OutputAt(k, e, aggregate, t, i);
    }
  }

  /** The cursor a run has reached on a log. */
  predicate CursorAt(k: Kernel, c: Cursor, events: seq<Stored>, n: nat)
    requires n <= |events|
  {
    && CursorSealed(k, c) && c.processed == n && c.lastEventHash == HashBefore(events, n)
    && (n == 0 ==> c == GenesisCursor(k))
    && (n > 0 ==> c.logicalAtMs == events[n - 1].captured.logicalAtMs)
  }

  /** A commit assembled from sealed parts after a sound cursor: only its outputs remain to be checked. */
  lemma BuiltCommit(k: Kernel, c: Commit, previous: Cursor)
    requires Verified(k.sha, c.event, c.event.previousEventHash)
    requires CheckpointSealed(k, c.aggregate) && c.aggregate.version > 0 && c.aggregate.lastInput == c.event.position
    requires c.cursor == NextCursor(k, previous, c.event, c.aggregate, c.outputs) && c.expectedPosition == previous.processed
    requires CursorSealed(k, previous) && (previous.processed == 0 ==> previous == GenesisCursor(k))
    requires c.event.position == previous.processed + 1 && c.event.previousEventHash == previous.lastEventHash
    requires previous.logicalAtMs <= c.event.captured.logicalAtMs
    ensures TransitionChecked(k, c, previous) <==> OutputsChecked(k, c.event, c.aggregate.aggregateId, c.outputs)
  {
    hide Verified, CheckpointSealed, OutputsChecked, Semantics, GenesisCursor;
  }

  /**
    Producer meets checker: the commit built for the next event of a log, from a cursor rooted at
    genesis, passes the checker exactly when its outputs fit the persisted schema.
   */
  lemma ProducerMeetsChecker(k: Kernel, v: View, events: seq<Stored>, n: nat)
    requires Injective(k.sha) && Chain(k.sha, events) && Wellformed(k.sha, events) && n < |events|
    requires CursorAt(k, Current(k, v), events, n) && Produce(k, v, events[n]).Some?
    ensures var c := Produce(k, v, events[n]).value;
            TransitionChecked(k, c, Current(k, v)) <==> AllFit(c.outputs)
  {
    var e, c := events[n], Produce(k, v, events[n]).value;
    assert Current(k, v).processed == n && CursorSealed(k, Current(k, v)) && (n == 0 ==> Current(k, v) == GenesisCursor(k));
    CursorClock(k, Current(k, v), events, n);
    hide *;
    ChainAt(k.sha, events, n);
    var t, aggregate := ProducedFrom(k, v, e);
    OutputsMeetChecker(k, e, aggregate, t);
    BuiltCommit(k, c, Current(k, v));
  }

  lemma CursorClock(k: Kernel, c: Cursor, events: seq<Stored>, n: nat)
    requires n < |events| && CursorAt(k, c, events, n) && Wellformed(k.sha, events) && Chain(k.sha, events)
    ensures c.logicalAtMs <= events[n].captured.logicalAtMs && c.lastEventHash == HashBefore(events, n)
  {
    hide Verified;
    LogicalClock(k.sha, events, n);
  }

  lemma LogicalClock(sha: Sha, events: seq<Stored>, n: nat)
    requires Wellformed(sha, events) && n < |events|
    ensures n > 0 ==> events[n - 1].captured.logicalAtMs <= events[n].captured.logicalAtMs
  {
  }

  /** The parts a produced commit is made of. */
  lemma ProducedFrom(k: Kernel, v: View, e: Stored) returns (t: Transition, aggregate: string)
    requires Produce(k, v, e).Some?
    ensures Producible(k, e, aggregate, t)
    ensures var c := Produce(k, v, e).value;
            && c.event == e && c.outputs == Outputs(k, e, aggregate, t) && c.aggregate.aggregateId == aggregate
            && CheckpointSealed(k, c.aggregate) && c.aggregate.version > 0 && c.aggregate.lastInput == e.position
            && c.expectedPosition == Current(k, v).processed
            && c.cursor == NextCursor(k, Current(k, v), e, c.aggregate, c.outputs)
  {
    hide Producible, Outputs, NextCursor, Prior, Recognized;
    aggregate := k.reducer.route(e).value;
    t := k.reducer.apply(Recognized(k, Prior(k, v, aggregate).value).value, e).value;
  }

  // ----- What the hashes of a checkpoint say about its state -----

  /** A sealed checkpoint is taken up again exactly when the reducer parses its state to itself. */
  lemma RecognizedExactly(k: Kernel, c: Checkpoint)
    requires Injective(k.sha) && CheckpointSealed(k, c)
    ensures Recognized(k, c) == if k.reducer.parse(c.state) == Some(c.state) then Some(c.state) else None
  {
    var state := k.reducer.parse(c.state);
    if state.Some? && CheckpointSealed(k, c.(state := state.value)) {
      SealedState(k, c, state.value);
    }
  }

  lemma SealedState(k: Kernel, c: Checkpoint, state: string)
    requires Injective(k.sha) && CheckpointSealed(k, c) && CheckpointSealed(k, c.(state := state))
    ensures state == c.state
  {
    var x := StatePre(k.run.reducerName, k.run.reducerVersion, c.state);
    var y := StatePre(k.run.reducerName, k.run.reducerVersion, state);
    assert k.sha(x) == c.stateHash == k.sha(y);
  }

  // ----- Outputs the schema refuses -----

  /** A reducer that answers every event with the same decisions, all under one name. */
  function Announcing(name: string, count: nat): Reducer {
    Reducer((e: Stored) => Some("a"), (aggregate: string) => Some("{}"), (state: string) => Some(state),
            (state: string, e: Stored) => Some(Announcement(name, count, state)))
  }

  function Announcement(name: string, count: nat, state: string): Transition {
    Transition(state, seq(count, i => DecisionBody(name, "{}")), [], [])
  }

  lemma AnnouncedOutputs(k: Kernel, name: string, count: nat, state: string, e: Stored)
    requires name != ""
    ensures var t := Announcement(name, count, state);
            && Producible(k, e, "a", t) && |Outputs(k, e, "a", t)| == count
            && forall i :: 0 <= i < count ==> Outputs(k, e, "a", t)[i].body == DecisionBody(name, "{}")
  {
    var t := Announcement(name, count, state);
    forall i | 0 <= i < count ensures Outputs(k, e, "a", t)[i] == Make(k, e, "a", Decision, i, DecisionBody(name, "{}")) {
      OutputsPlaced(k, e, "a", t);
      assert Placed(k, e, "a", t, Outputs(k, e, "a", t), i);
    }
    OutputsPlaced(k, e, "a", t);
    hide Outputs;
  }

  lemma AnnouncedState(k: Kernel, name: string, count: nat, v: View) returns (state: string)
    requires k.reducer == Announcing(name, count) && ("a" in v.aggregates ==> CheckpointSealed(k, v.aggregates["a"]))
    ensures var prior := Prior(k, v, "a"); prior.Some? && Recognized(k, prior.value) == Some(state)
  {
    var prior := Prior(k, v, "a").value;
    assert prior.(state := prior.state) == prior;
    state := prior.state;
  }

  lemma AnnouncedProduced(k: Kernel, name: string, count: nat, v: View, e: Stored)
    requires k.reducer == Announcing(name, count) && ("a" in v.aggregates ==> CheckpointSealed(k, v.aggregates["a"])) && name != ""
    ensures Produce(k, v, e).Some?
    ensures AllFit(Produce(k, v, e).value.outputs) <==> count <= MAX_OUTPUTS && (count > 0 ==> |name| <= MAX_TEXT)
  {
    var state := AnnouncedState(k, name, count, v);
    AnnouncedOutputs(k, name, count, state, e);
    assert k.reducer.apply(state, e) == Some(Announcement(name, count, state));
    hide Producible, Outputs, NextCursor, Prior, Recognized, SealCheckpoint, CheckpointSealed;
    assert Produce(k, v, e).value.outputs == Outputs(k, e, "a", Announcement(name, count, state));
    if count > 0 { assert Outputs(k, e, "a", Announcement(name, count, state))[0].body == DecisionBody(name, "{}"); }
  }

  /** Every number of named decisions is produced; the checker takes at most 100000, under a name of at most 512 characters. */
  lemma AnnouncedExactly(sha: Sha, run: Run, name: string, count: nat, v: View, events: seq<Stored>, n: nat)
    requires Injective(sha) && Chain(sha, events) && Wellformed(sha, events) && n < |events| && name != ""
    requires var k := Kernel(sha, run, Announcing(name, count));
             CursorAt(k, Current(k, v), events, n) && ("a" in v.aggregates ==> CheckpointSealed(k, v.aggregates["a"]))
    ensures var k := Kernel(sha, run, Announcing(name, count));
            && Produce(k, v, events[n]).Some?
            && (TransitionChecked(k, Produce(k, v, events[n]).value, Current(k, v))
                <==> count <= MAX_OUTPUTS && (count > 0 ==> |name| <= MAX_TEXT))
  {
    var k := Kernel(sha, run, Announcing(name, count));
    AnnouncedProduced(k, name, count, v, events[n]);
    hide *;
    ProducerMeetsChecker(k, v, events, n);
  }
}
