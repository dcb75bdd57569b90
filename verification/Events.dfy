/**
  The event log: drafts from providers, captured once each into a hash-chained list, and the two logs
  that serve it page by page.

  A JSON value that is only hashed or compared is represented by its canonical text, and SHA-256 by an
  injective function on preimages, one constructor for each domain tag.
 */
module Events {
  import opened Base

  type Id = nat

  const GENESIS_HASH: Id := 0

  datatype Provider = Provider(provider: string, recordId: string, revisionId: string, artifactHash: Id)

  /** `rest` is the type, source, occurrence time, correlation and payload. */
  datatype Draft = Draft(subject: string, provider: Provider, rest: string)

  datatype Captured = Captured(draft: Draft, eventId: Id, streamVersion: nat, receivedAtMs: nat, logicalAtMs: nat)

  datatype Stored = Stored(captured: Captured, position: nat, contentHash: Id, previousEventHash: Id, eventHash: Id)

  datatype Category = Decision | Job | Outbox

  /** What a reducer emits; the body that is stored has the same fields. */
  datatype Body =
    | DecisionBody(kind: string, payload: string)
    | JobBody(jobId: Id, kind: string, jobKey: string, notBeforeLogicalMs: int, inputBundleHash: Id, payload: string)
    | MessageBody(messageId: Id, topic: string, messageKey: string, payload: string)

  datatype Semantic = Semantic(category: Category, ordinal: nat, body: Body, bodyHash: Id)

  /** Everything that is ever hashed. */
  datatype Preimage =
    | ProviderPre(provider: string, recordId: string, revisionId: string)
    | EventPre(identity: Provider)
    | ContentPre(captured: Captured)
    | ChainPre(position: nat, contentHash: Id, previousEventHash: Id)
    | StatePre(reducer: string, version: string, state: string)
    | CheckpointPre(run: string, aggregate: string, aggregateVersion: nat, lastInput: nat, stateHash: Id)
    | CursorPre(
        run: string, manifest: Id, behavior: Id, processed: nat, logicalAtMs: nat, lastEvent: Id, stateHead: Id, decisionHead: Id)
    | StateGenesisPre(behavior: Id)
    | DecisionGenesisPre(behavior: Id)
    | StateStepPre(previous: Id, event: Id, aggregate: string, stateHash: Id)
    | DecisionStepPre(previous: Id, event: Id, outputs: seq<Semantic>)
    | BodyPre(body: Body)
    | OutputPre(run: string, manifest: Id, event: Id, aggregate: string, category: Category, ordinal: nat, bodyHash: Id)
    | DedupePre(run: string, category: Category, key: string)
    | JobPre(run: string, key: string, payload: string)
    | MessagePre(run: string, key: string, payload: string)

  type Sha = Preimage -> Id

  ghost predicate Injective(sha: Sha) {
    forall x: Preimage, y: Preimage {:trigger sha(x), sha(y)} :: sha(x) == sha(y) ==> x == y
  }

  function ProviderKey(sha: Sha, p: Provider): Id {
    sha(ProviderPre(p.provider, p.recordId, p.revisionId))
  }

  function KeyOf(sha: Sha, e: Stored): Id {
    ProviderKey(sha, e.captured.draft.provider)
  }

  /** Store a captured event at a position of the chain. */
  function Seal(sha: Sha, c: Captured, position: nat, previous: Id): Stored {
    var content := sha(ContentPre(c));
    Stored(c, position, content, previous, sha(ChainPre(position, content, previous)))
  }

  /** The chain, identity and hash checks of `verifyStoredEvent`. */
  predicate Verified(sha: Sha, e: Stored, previous: Id) {
    && e.previousEventHash == previous
    && e.captured.eventId == sha(EventPre(e.captured.draft.provider))
    && e.contentHash == sha(ContentPre(e.captured))
    && e.eventHash == sha(ChainPre(e.position, e.contentHash, e.previousEventHash))
  }

  /** The hash the event at index `n` has to follow. */
  function HashBefore(events: seq<Stored>, n: nat): Id
    requires n <= |events|
  {
    if n == 0 then GENESIS_HASH else events[n - 1].eventHash
  }

  /** Positions count from one without a gap and every event follows the one before it. */
  predicate Chain(sha: Sha, events: seq<Stored>) {
    forall i :: 0 <= i < |events| ==> events[i].position == i + 1 && Verified(sha, events[i], HashBefore(events, i))
  }

  // ----- Capturing -----

  datatype Disposition = Appended | Redelivery

  datatype CaptureError = ChangedWithoutRevision | ConflictingMetadata

  /** The event already captured for a provider record, if any. */
  function Existing(sha: Sha, events: seq<Stored>, key: Id): Option<Stored> {
    if events == [] then None
    else if KeyOf(sha, events[0]) == key then Some(events[0])
    else Existing(sha, events[1..], key)
  }

  /** How many events a subject has. */
  function SubjectCount(events: seq<Stored>, subject: string): nat {
    if events == [] then 0
    else SubjectCount(events[..|events| - 1], subject) + (if events[|events| - 1].captured.draft.subject == subject then 1 else 0)
  }

  function NextLogical(events: seq<Stored>, now: nat): nat {
    if events == [] || events[|events| - 1].captured.logicalAtMs <= now then now
    else events[|events| - 1].captured.logicalAtMs
  }

  function Capture(sha: Sha, events: seq<Stored>, draft: Draft, now: nat): Stored {
    var c := Captured(draft, sha(EventPre(draft.provider)), SubjectCount(events, draft.subject) + 1, now, NextLogical(events, now));
    Seal(sha, c, |events| + 1, HashBefore(events, |events|))
  }

  /** What `append` answers, read off the list of events alone. */
  function AppendResult(sha: Sha, events: seq<Stored>, draft: Draft, now: nat): Result<(Stored, Disposition), CaptureError> {
    var existing := Existing(sha, events, ProviderKey(sha, draft.provider));
    if existing.None? then Ok((Capture(sha, events, draft, now), Appended))
    else if existing.value.captured.draft.provider.artifactHash != draft.provider.artifactHash then Err(ChangedWithoutRevision)
    else if existing.value.captured.draft != draft then Err(ConflictingMetadata)
    else Ok((existing.value, Redelivery))
  }

  function AppendEvents(sha: Sha, events: seq<Stored>, draft: Draft, now: nat): seq<Stored> {
    var r := AppendResult(sha, events, draft, now);
    if r.Ok? && r.value.1.Appended? then events + [r.value.0] else events
  }

  // ----- Paging -----

  datatype Page = Page(events: seq<Stored>, nextPosition: nat, hasMore: bool)

  function Slice(events: seq<Stored>, from: nat, limit: nat): (r: seq<Stored>) {
    if from >= |events| then [] else if from + limit >= |events| then events[from..] else events[from..from + limit]
  }

  function PageAfter(events: seq<Stored>, position: nat, limit: nat): Page {
    var selected := Slice(events, position, limit);
    var next := if selected == [] then position else selected[|selected| - 1].position;
    Page(selected, next, next < |events|)
  }

  function At(events: seq<Stored>, position: nat): Option<Stored> {
    if position < 1 || position > |events| then None else Some(events[position - 1])
  }

  /** A page of a chain is the next stretch of it and says truly where it ends and whether more follows. */
  lemma PageCovers(sha: Sha, events: seq<Stored>, position: nat, limit: nat)
    requires Chain(sha, events) && position <= |events| && limit > 0
    ensures var page := PageAfter(events, position, limit);
            && page.nextPosition == position + |page.events| <= |events|
            && page.events == events[position..page.nextPosition]
            && (page.hasMore <==> page.nextPosition < |events|)
            && (position < |events| ==> page.events != [])
  {
    hide Verified;
    var selected := Slice(events, position, limit);
    if selected != [] { assert selected[|selected| - 1] == events[position + |selected| - 1]; }
  }

  /** The pages read one after another, from a position, with any limits. */
  function ReadPages(events: seq<Stored>, position: nat, limits: seq<nat>): seq<Stored>
    decreases |limits|
  {
    if limits == [] then []
    else
      var page := PageAfter(events, position, limits[0]);
      if page.hasMore then page.events + ReadPages(events, page.nextPosition, limits[1..]) else page.events
  }

  /** Reading on to the end gives every event after the position once and in order, however it is cut. */
  lemma {:induction false} PagesCover(sha: Sha, events: seq<Stored>, position: nat, limits: seq<nat>)
    requires Chain(sha, events) && position <= |events| && |limits| >= |events| - position && limits != []
    requires forall i :: 0 <= i < |limits| ==> limits[i] > 0
    ensures ReadPages(events, position, limits) == events[position..]
    decreases |limits|
  {
    hide Chain, PageAfter;
    PageCovers(sha, events, position, limits[0]);
    var page := PageAfter(events, position, limits[0]);
    if page.hasMore {
      PagesCover(sha, events, page.nextPosition, limits[1..]);
      assert events[position..] == events[position..page.nextPosition] + events[page.nextPosition..];
    } else {
      assert events[position..page.nextPosition] == events[position..];
    }
  }

  // ----- What appending keeps -----

  lemma {:induction false} ExistingIs(sha: Sha, events: seq<Stored>, key: Id)
    ensures Existing(sha, events, key).None? <==> forall i :: 0 <= i < |events| ==> KeyOf(sha, events[i]) != key
    ensures Existing(sha, events, key).Some? ==>
              Existing(sha, events, key).value in events && KeyOf(sha, Existing(sha, events, key).value) == key
  {
    if events != [] {
      ExistingIs(sha, events[1..], key);
      assert forall i :: 0 < i < |events| ==> events[i] == events[1..][i - 1];
    }
  }

  lemma {:induction false} ExistingAppended(sha: Sha, events: seq<Stored>, e: Stored, key: Id)
    ensures Existing(sha, events + [e], key)
              == if Existing(sha, events, key).Some? then Existing(sha, events, key)
                 else if KeyOf(sha, e) == key then Some(e) else None
  {
    if events == [] {
      assert events + [e] == [e] && [e][1..] == [];
    } else {
      assert (events + [e])[1..] == events[1..] + [e];
      ExistingAppended(sha, events[1..], e, key);
    }
  }

  lemma CaptureVerified(sha: Sha, events: seq<Stored>, draft: Draft, now: nat)
    ensures var e := Capture(sha, events, draft, now);
            e.position == |events| + 1 && Verified(sha, e, HashBefore(events, |events|)) && e.captured.draft == draft
  {
    hide SubjectCount, NextLogical, HashBefore;
  }

  lemma ChainExtends(sha: Sha, events: seq<Stored>, e: Stored)
    requires Chain(sha, events) && e.position == |events| + 1 && Verified(sha, e, HashBefore(events, |events|))
    ensures Chain(sha, events + [e])
  {
    hide Verified;
    var next := events + [e];
    forall i | 0 <= i < |next| ensures next[i].position == i + 1 && Verified(sha, next[i], HashBefore(next, i)) {
      assert HashBefore(next, i) == HashBefore(events, i);
    }
  }

  lemma AppendCases(sha: Sha, events: seq<Stored>, draft: Draft, now: nat)
    ensures AppendEvents(sha, events, draft, now)
              == if Existing(sha, events, ProviderKey(sha, draft.provider)).None?
                 then events + [Capture(sha, events, draft, now)] else events
  {
    hide Existing, Capture;
  }

  /** Appending keeps the chain, and only ever extends the list. */
  lemma AppendKeepsChain(sha: Sha, events: seq<Stored>, draft: Draft, now: nat)
    requires Chain(sha, events)
    ensures Chain(sha, AppendEvents(sha, events, draft, now)) && events <= AppendEvents(sha, events, draft, now)
  {
    hide *;
    AppendCases(sha, events, draft, now);
    CaptureVerified(sha, events, draft, now);
    ChainExtends(sha, events, Capture(sha, events, draft, now));
  }

  /** Delivering the same draft again changes nothing and is answered with the same event. */
  lemma RedeliveryIdempotent(sha: Sha, events: seq<Stored>, draft: Draft, now: nat, later: nat)
    requires AppendResult(sha, events, draft, now).Ok?
    ensures var once := AppendEvents(sha, events, draft, now);
            && AppendEvents(sha, once, draft, later) == once
            && AppendResult(sha, once, draft, later) == Ok((AppendResult(sha, events, draft, now).value.0, Redelivery))
  {
    var e := Capture(sha, events, draft, now);
    ExistingAppended(sha, events, e, ProviderKey(sha, draft.provider));
    hide Existing, SubjectCount, NextLogical, HashBefore;
  }

  predicate KeysUnique(sha: Sha, events: seq<Stored>) {
    forall i, j :: 0 <= i < j < |events| ==> KeyOf(sha, events[i]) != KeyOf(sha, events[j])
  }

  predicate VersionsCount(events: seq<Stored>) {
    forall i :: 0 <= i < |events| ==>
      events[i].captured.streamVersion == SubjectCount(events[..i], events[i].captured.draft.subject) + 1
  }

  /** Logical time is the latest receipt so far: it never falls, and never lies before or beyond what was received. */
  predicate ClocksRise(events: seq<Stored>) {
    && (forall i :: 0 < i < |events| ==> events[i - 1].captured.logicalAtMs <= events[i].captured.logicalAtMs)
    && forall i :: 0 <= i < |events| ==> LatestReceipt(events, i, events[i].captured.logicalAtMs)
  }

  predicate LatestReceipt(events: seq<Stored>, i: nat, t: nat)
    requires i < |events|
  {
    && (forall j :: 0 <= j <= i ==> events[j].captured.receivedAtMs <= t)
    && exists j :: 0 <= j <= i && events[j].captured.receivedAtMs == t
  }

  /** No two events come from the same provider record and revision, and subjects are numbered from one. */
  predicate Wellformed(sha: Sha, events: seq<Stored>) {
    KeysUnique(sha, events) && VersionsCount(events) && ClocksRise(events)
  }

  lemma CaptureIs(sha: Sha, events: seq<Stored>, draft: Draft, now: nat)
    ensures var e := Capture(sha, events, draft, now);
            && KeyOf(sha, e) == ProviderKey(sha, draft.provider)
            && e.captured.draft.subject == draft.subject && e.captured.streamVersion == SubjectCount(events, draft.subject) + 1
            && e.captured.receivedAtMs == now && e.captured.logicalAtMs == NextLogical(events, now)
  {
    hide SubjectCount, NextLogical, HashBefore;
  }

  lemma VersionAdded(events: seq<Stored>, e: Stored)
    requires VersionsCount(events) && e.captured.streamVersion == SubjectCount(events, e.captured.draft.subject) + 1
    ensures VersionsCount(events + [e])
  {
    hide SubjectCount;
    var next := events + [e];
    forall i | 0 <= i < |next|
      ensures next[i].captured.streamVersion == SubjectCount(next[..i], next[i].captured.draft.subject) + 1 {
      assert next[..i] == events[..i];
      if i == |events| { assert events[..i] == events; }
    }
  }

  lemma ClockAdded(events: seq<Stored>, e: Stored, now: nat)
    requires ClocksRise(events) && e.captured.receivedAtMs == now && e.captured.logicalAtMs == NextLogical(events, now)
    ensures ClocksRise(events + [e])
  {
    hide LatestReceipt;
    var next, n := events + [e], |events|;
    forall i | 0 <= i <= n ensures LatestReceipt(next, i, next[i].captured.logicalAtMs) {
      if i < n { ReceiptsKept(events, e, i, events[i].captured.logicalAtMs); } else { ReceiptAdded(events, e, now); }
    }
  }

  lemma ReceiptAdded(events: seq<Stored>, e: Stored, now: nat)
    requires e.captured.receivedAtMs == now && e.captured.logicalAtMs == NextLogical(events, now)
    requires events != [] ==> LatestReceipt(events, |events| - 1, events[|events| - 1].captured.logicalAtMs)
    ensures LatestReceipt(events + [e], |events|, e.captured.logicalAtMs)
  {
    var next, n := events + [e], |events|;
    if n == 0 {
      assert next[0].captured.receivedAtMs == now;
    } else {
      hide LatestReceipt;
      var last := events[n - 1].captured.logicalAtMs;
      ReceiptsKept(events, e, n - 1, last);
      ReceiptsNext(next, n, last);
    }
  }

  lemma ReceiptsKept(events: seq<Stored>, e: Stored, i: nat, t: nat)
    requires i < |events| && LatestReceipt(events, i, t)
    ensures LatestReceipt(events + [e], i, t)
  {
    var j :| 0 <= j <= i && events[j].captured.receivedAtMs == t;
    assert (events + [e])[j] == events[j];
  }

  lemma ReceiptsNext(next: seq<Stored>, n: nat, last: nat)
    requires 0 < n < |next| && LatestReceipt(next, n - 1, last)
    ensures LatestReceipt(next, n, Max(last, next[n].captured.receivedAtMs))
  {
    var j :| 0 <= j < n && next[j].captured.receivedAtMs == last;
    var t := Max(last, next[n].captured.receivedAtMs);
    assert next[if t == last then j else n].captured.receivedAtMs == t;
  }

  predicate SameRevision(e: Stored, draft: Draft) {
    var p, q := e.captured.draft.provider, draft.provider;
    p.provider == q.provider && p.recordId == q.recordId && p.revisionId == q.revisionId
  }

  /**
    A draft is appended exactly when its provider's revision is new. Otherwise the event of that revision
    decides: another artifact is an unannounced change, anything else that differs a conflict, and the same
    draft is answered with that event.
   */
  lemma AppendAnswers(sha: Sha, events: seq<Stored>, draft: Draft, now: nat)
    requires Injective(sha) && KeysUnique(sha, events)
    ensures var r := AppendResult(sha, events, draft, now);
            && ((forall i :: 0 <= i < |events| ==> !SameRevision(events[i], draft)) <==> r.Ok? && r.value.1 == Appended)
            && (r.Ok? && r.value.1 == Appended ==>
                  r.value.0.captured.draft == draft && r.value.0.position == |events| + 1 && r.value.0.captured.receivedAtMs == now)
            && forall i :: 0 <= i < |events| && SameRevision(events[i], draft) ==>
                 r == (if events[i].captured.draft.provider.artifactHash != draft.provider.artifactHash then Err(ChangedWithoutRevision)
                       else if events[i].captured.draft != draft then Err(ConflictingMetadata) else Ok((events[i], Redelivery)))
  {
    var key := ProviderKey(sha, draft.provider);
    ExistingIs(sha, events, key);
    CaptureVerified(sha, events, draft, now);
    CaptureIs(sha, events, draft, now);
    hide Existing, Capture, KeyOf, ProviderKey, SameRevision, KeysUnique, Verified, NextLogical, SubjectCount;
    forall i | 0 <= i < |events| ensures SameRevision(events[i], draft) <==> Existing(sha, events, key) == Some(events[i]) {
      KeysTell(sha, events[i], draft);
      if SameRevision(events[i], draft) { ExistingAt(sha, events, i); }
    }
    if Existing(sha, events, key).Some? { var i :| 0 <= i < |events| && events[i] == Existing(sha, events, key).value; }
  }

  lemma ExistingAt(sha: Sha, events: seq<Stored>, i: nat)
    requires KeysUnique(sha, events) && i < |events|
    ensures Existing(sha, events, KeyOf(sha, events[i])) == Some(events[i])
  {
    hide Existing, KeyOf;
    ExistingIs(sha, events, KeyOf(sha, events[i]));
    var e := Existing(sha, events, KeyOf(sha, events[i])).value;
    var j :| 0 <= j < |events| && events[j] == e;
  }

  lemma KeysTell(sha: Sha, e: Stored, draft: Draft)
    requires Injective(sha)
    ensures KeyOf(sha, e) == ProviderKey(sha, draft.provider) <==> SameRevision(e, draft)
  {
    var p, q := e.captured.draft.provider, draft.provider;
    assert sha(ProviderPre(p.provider, p.recordId, p.revisionId)) == sha(ProviderPre(q.provider, q.recordId, q.revisionId)) <==>
      ProviderPre(p.provider, p.recordId, p.revisionId) == ProviderPre(q.provider, q.recordId, q.revisionId);
  }

  predicate OfSubject(e: Stored, subject: string) {
    e.captured.draft.subject == subject
  }

  lemma {:induction false} CountSkips(events: seq<Stored>, i: nat, j: nat, subject: string)
    requires i <= j <= |events| && forall n :: i <= n < j ==> !OfSubject(events[n], subject)
    ensures SubjectCount(events[..j], subject) == SubjectCount(events[..i], subject)
    decreases j
  {
    if i < j {
      CountSkips(events, i, j - 1, subject);
      assert events[..j][..j - 1] == events[..j - 1] && events[..j][j - 1] == events[j - 1];
    }
  }

  /** The first event of a subject has version one, and each further one the version after the one before it. */
  lemma VersionsFollow(events: seq<Stored>, j: nat)
    requires VersionsCount(events) && j < |events|
    ensures var subject := events[j].captured.draft.subject;
            && ((forall n :: 0 <= n < j ==> !OfSubject(events[n], subject)) ==> events[j].captured.streamVersion == 1)
            && forall i :: 0 <= i < j && OfSubject(events[i], subject) && (forall n :: i < n < j ==> !OfSubject(events[n], subject)) ==>
                 events[j].captured.streamVersion == events[i].captured.streamVersion + 1
  {
    var subject := events[j].captured.draft.subject;
    if forall n :: 0 <= n < j ==> !OfSubject(events[n], subject) { CountSkips(events, 0, j, subject); assert events[..0] == []; }
    forall i: nat | i < j && OfSubject(events[i], subject) && forall n :: i < n < j ==> !OfSubject(events[n], subject)
      ensures events[j].captured.streamVersion == events[i].captured.streamVersion + 1 {
      CountSkips(events, i + 1, j, subject);
      assert events[..i + 1][..i] == events[..i] && events[..i + 1][i] == events[i];
    }
  }

  lemma KeyAdded(sha: Sha, events: seq<Stored>, e: Stored)
    requires KeysUnique(sha, events) && forall i :: 0 <= i < |events| ==> KeyOf(sha, events[i]) != KeyOf(sha, e)
    ensures KeysUnique(sha, events + [e])
  {
    hide KeyOf;
  }

  lemma AppendKeepsWellformed(sha: Sha, events: seq<Stored>, draft: Draft, now: nat)
    requires Wellformed(sha, events)
    ensures Wellformed(sha, AppendEvents(sha, events, draft, now))
  {
    hide Existing, AppendEvents, Capture, KeyOf, ProviderKey, NextLogical, SubjectCount, KeysUnique, VersionsCount, ClocksRise;
    AppendCases(sha, events, draft, now);
    ExistingIs(sha, events, ProviderKey(sha, draft.provider));
    var e := Capture(sha, events, draft, now);
    CaptureIs(sha, events, draft, now);
    if Existing(sha, events, ProviderKey(sha, draft.provider)).None? {
      KeyAdded(sha, events, e);
      VersionAdded(events, e);
      ClockAdded(events, e, now);
    }
  }

  lemma SameHashSameEvent(sha: Sha, x: Stored, p: Id, y: Stored, q: Id)
    requires Injective(sha) && Verified(sha, x, p) && Verified(sha, y, q) && x.eventHash == y.eventHash
    ensures x == y
  {
    assert sha(ChainPre(x.position, x.contentHash, x.previousEventHash)) == sha(ChainPre(y.position, y.contentHash, y.previousEventHash));
    assert sha(ContentPre(x.captured)) == sha(ContentPre(y.captured));
  }

  lemma ChainAt(sha: Sha, events: seq<Stored>, i: nat)
    requires Chain(sha, events) && i < |events|
    ensures events[i].position == i + 1 && Verified(sha, events[i], HashBefore(events, i))
    ensures events[i].previousEventHash == HashBefore(events, i)
  {
  }

  /** The hash of the last event determines the whole list. */
  lemma {:induction false} HeadDeterminesLog(sha: Sha, a: seq<Stored>, b: seq<Stored>)
    requires Injective(sha) && Chain(sha, a) && Chain(sha, b) && a != [] && b != []
    requires a[|a| - 1].eventHash == b[|b| - 1].eventHash
    ensures a == b
    decreases |a|
  {
    hide Injective, Chain, Verified;
    var n, m := |a| - 1, |b| - 1;
    ChainAt(sha, a, n);
    ChainAt(sha, b, m);
    SameHashSameEvent(sha, a[n], HashBefore(a, n), b[m], HashBefore(b, m));
    if n > 0 {
      ChainPrefix(sha, a, n);
      ChainPrefix(sha, b, n);
      assert a[..n][n - 1] == a[n - 1] && b[..n][n - 1] == b[n - 1];
      HeadDeterminesLog(sha, a[..n], b[..n]);
    }
    assert a == a[..n] + [a[n]] && b == b[..n] + [b[n]];
  }

  lemma ChainPrefix(sha: Sha, events: seq<Stored>, n: nat)
    requires Chain(sha, events) && n <= |events|
    ensures Chain(sha, events[..n])
  {
    hide Verified;
    var head := events[..n];
    forall i | 0 <= i < n ensures head[i].position == i + 1 && Verified(sha, head[i], HashBefore(head, i)) {
      assert head[i] == events[i] && HashBefore(head, i) == HashBefore(events, i);
    }
  }

  // ----- The two logs -----

  /** The log in memory, with an index of provider records and a counter for each subject. */
  class InMemoryEventLog {
    const sha: Sha
    var events: seq<Stored>
    var providerEvents: map<Id, Stored>
    var streamVersions: map<string, nat>

    ghost predicate Valid()
      reads this
    {
      && Chain(sha, events) && Wellformed(sha, events)
      && (forall key :: key in providerEvents <==> Existing(sha, events, key).Some?)
      && (forall key :: key in providerEvents ==> Existing(sha, events, key) == Some(providerEvents[key]))
      && (forall subject: string :: (if subject in streamVersions then streamVersions[subject] else 0) == SubjectCount(events, subject))
    }

    constructor (sha: Sha)
      ensures Valid() && events == [] && this.sha == sha
    {
      this.sha := sha;
      events, providerEvents, streamVersions := [], map[], map[];
    }

    /** Capture a draft, or answer with what was captured before. The index decides, not a search. */
    method Append(draft: Draft, now: nat) returns (r: Result<(Stored, Disposition), CaptureError>)
      requires Valid()
      modifies this
      ensures Valid()
      ensures r == AppendResult(sha, old(events), draft, now)
      ensures events == AppendEvents(sha, old(events), draft, now)
    {
      hide Existing, SubjectCount, Chain, Wellformed, Capture, ProviderKey;
      var key := ProviderKey(sha, draft.provider);
      if key in providerEvents {
        var existing := providerEvents[key];
        if existing.captured.draft.provider.artifactHash != draft.provider.artifactHash { return Err(ChangedWithoutRevision); }
        if existing.captured.draft != draft { return Err(ConflictingMetadata); }
        return Ok((existing, Redelivery));
      }
      AppendKeepsChain(sha, events, draft, now);
      AppendKeepsWellformed(sha, events, draft, now);
      var version := (if draft.subject in streamVersions then streamVersions[draft.subject] else 0) + 1;
      var e := CaptureEvent(draft, now, version);
      IndexKept(sha, events, providerEvents, streamVersions, draft, now);
      events := events + [e];
      providerEvents := providerEvents[key := e];
      streamVersions := streamVersions[draft.subject := version];
      r := Ok((e, Appended));
    }

    /** Identity, version, logical time and chain position of a new event. */
    method CaptureEvent(draft: Draft, now: nat, version: nat) returns (e: Stored)
      requires version == SubjectCount(events, draft.subject) + 1
      ensures e == Capture(sha, events, draft, now)
    {
      hide SubjectCount;
      var logical := if events != [] && events[|events| - 1].captured.logicalAtMs > now
                     then events[|events| - 1].captured.logicalAtMs else now;
      var captured := Captured(draft, sha(EventPre(draft.provider)), version, now, logical);
      e := Seal(sha, captured, |events| + 1, if events == [] then GENESIS_HASH else events[|events| - 1].eventHash);
    }

    method Get(position: nat) returns (e: Option<Stored>)
      ensures e == At(events, position)
    {
      if position < 1 || position > |events| { return None; }
      e := Some(events[position - 1]);
    }

    method ReadAfter(position: nat, limit: nat) returns (page: Page)
      ensures page == PageAfter(events, position, limit)
    {
      var selected := Slice(events, position, limit);
      var next := if selected == [] then position else selected[|selected| - 1].position;
      page := Page(selected, next, next < |events|);
    }
  }

  lemma IndexKept(
      sha: Sha, events: seq<Stored>, index: map<Id, Stored>, versions: map<string, nat>, draft: Draft, now: nat)
    requires forall key :: key in index <==> Existing(sha, events, key).Some?
    requires forall key :: key in index ==> Existing(sha, events, key) == Some(index[key])
    requires forall subject: string :: (if subject in versions then versions[subject] else 0) == SubjectCount(events, subject)
    requires Existing(sha, events, ProviderKey(sha, draft.provider)).None?
    ensures var e := Capture(sha, events, draft, now);
            var key := ProviderKey(sha, draft.provider);
            var index2 := index[key := e];
            var versions2 := versions[draft.subject := SubjectCount(events, draft.subject) + 1];
            && (forall k :: k in index2 <==> Existing(sha, events + [e], k).Some?)
            && (forall k :: k in index2 ==> Existing(sha, events + [e], k) == Some(index2[k]))
            && (forall subject: string :: (if subject in versions2 then versions2[subject] else 0) == SubjectCount(events + [e], subject))
  {
    var e := Capture(sha, events, draft, now);
    forall k ensures Existing(sha, events + [e], k)
        == if Existing(sha, events, k).Some? then Existing(sha, events, k) else if KeyOf(sha, e) == k then Some(e) else None {
      ExistingAppended(sha, events, e, k);
    }
    assert (events + [e])[..|events|] == events;
    hide Existing, KeyOf;
    assert KeyOf(sha, e) == ProviderKey(sha, draft.provider) by { KeyIs(sha, events, draft, now); }
  }

  lemma KeyIs(sha: Sha, events: seq<Stored>, draft: Draft, now: nat)
    ensures KeyOf(sha, Capture(sha, events, draft, now)) == ProviderKey(sha, draft.provider)
  {
  }

  /** A read-only log over events captured earlier: a list is served only if it is a chain from genesis. */
  class CapturedEventLog {
    const sha: Sha
    const events: seq<Stored>

    constructor (sha: Sha, events: seq<Stored>)
      requires Chain(sha, events)
      ensures this.sha == sha && this.events == events
    {
      this.sha := sha;
      this.events := events;
    }

    method Get(position: nat) returns (e: Option<Stored>)
      ensures e == At(events, position)
    {
      if position < 1 || position > |events| { return None; }
      e := Some(events[position - 1]);
    }

    method ReadAfter(position: nat, limit: nat) returns (page: Page)
      ensures page == PageAfter(events, position, limit)
    {
      var selected := Slice(events, position, limit);
      var next := if selected == [] then position else selected[|selected| - 1].position;
      page := Page(selected, next, next < |events|);
    }
  }

  predicate Follows(sha: Sha, events: seq<Stored>, i: nat)
    requires i < |events|
  {
    events[i].position == i + 1 && Verified(sha, events[i], HashBefore(events, i))
  }

  lemma ChainOfFollows(sha: Sha, events: seq<Stored>)
    ensures Chain(sha, events) <==> forall i :: 0 <= i < |events| ==> Follows(sha, events, i)
  {
    hide Verified, HashBefore;
    if Chain(sha, events) {
      forall i | 0 <= i < |events| ensures Follows(sha, events, i) {
      }
    }
    if forall i :: 0 <= i < |events| ==> Follows(sha, events, i) {
      forall i | 0 <= i < |events| ensures events[i].position == i + 1 && Verified(sha, events[i], HashBefore(events, i)) {
        assert Follows(sha, events, i);
      }
    }
  }

  /** The checks of the captured log's constructor, one event after another. */
  method VerifyCaptured(sha: Sha, events: seq<Stored>) returns (ok: bool)
    ensures ok == Chain(sha, events)
  {
    ChainOfFollows(sha, events);
    hide Chain, Verified;
    var previousHash := GENESIS_HASH;
    var expectedPosition := 1;
    for i := 0 to |events|
      invariant expectedPosition == i + 1 && previousHash == HashBefore(events, i)
      invariant forall j :: 0 <= j < i ==> Follows(sha, events, j)
    {
      if events[i].position != expectedPosition || !Verified(sha, events[i], previousHash) {
        assert !Follows(sha, events, i);
        return false;
      }
      previousHash := events[i].eventHash;
      expectedPosition := expectedPosition + 1;
    }
    ok := true;
  }
}
