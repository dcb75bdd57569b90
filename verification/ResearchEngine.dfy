/**
  The research engine: features from what was known by a cutoff, labels from prices after it, and trials
  of every variant on every input and horizon.

  Prices and returns are reals, rounding not being the point. A feature or a label stands for its own
  identity, the digest of its whole body.
 */
module ResearchEngine {
  import opened Base

  // ----- Inputs -----

  datatype Lane = Sec | IssuerIr | OtherLane

  datatype Member = Member(key: nat, lane: Lane, publication: Option<nat>, observed: nat, retrieved: nat)

  datatype Record = Record(key: nat, normalized: Option<nat>, ready: Option<nat>)

  datatype Bar = Bar(instrument: nat, endMs: nat, availableAt: Option<nat>, close: real)

  datatype Input = Input(
    ticker: nat, instrument: nat, sector: nat, members: seq<Member>, records: seq<Record>, bars: seq<Bar>,
    decision: nat, cutoff: nat, initialStart: nat, closeMs: nat, nextSession: nat, repair: bool, stopped: bool)

  const SPY: nat := 0

  predicate ClocksInOrder(x: Input) {
    x.cutoff <= x.decision && x.initialStart < x.cutoff && x.decision < x.closeMs && x.closeMs < x.nextSession
  }

  predicate RecordsBound(x: Input) {
    && |x.records| == |x.members|
    && (forall i, j :: 0 <= i < j < |x.records| ==> x.records[i].key != x.records[j].key)
    && (forall i :: 0 <= i < |x.members| ==> MemberInOrder(x.members[i]) && FindRecord(x.records, x.members[i].key).Some?)
  }

  predicate MemberInOrder(m: Member) {
    m.retrieved >= m.observed && (m.publication.Some? ==> m.publication.value <= m.observed)
  }

  predicate BarsSound(bars: seq<Bar>) {
    && (forall i, j :: 0 <= i < j < |bars| ==> bars[i].instrument != bars[j].instrument || bars[i].endMs != bars[j].endMs)
    && (forall i :: 0 <= i < |bars| ==>
          bars[i].close > 0.0 && bars[i].endMs % 60000 == 0 && (bars[i].availableAt.Some? ==> bars[i].availableAt.value >= bars[i].endMs))
  }

  /** What `freezeResearchInput` accepts. */
  predicate Frozen(x: Input) {
    ClocksInOrder(x) && RecordsBound(x) && BarsSound(x.bars)
  }

  /** What the cluster's lifecycle keeps and freezing does not check again. */
  predicate UniqueMembers(x: Input) {
    forall i, j :: 0 <= i < j < |x.members| ==> x.members[i].key != x.members[j].key
  }

  function FindRecord(rs: seq<Record>, key: nat): Option<Record> {
    if rs == [] then None else if rs[0].key == key then Some(rs[0]) else FindRecord(rs[1..], key)
  }

  function FindBar(bars: seq<Bar>, instrument: nat, at: nat): Option<Bar> {
    if bars == [] then None
    else if bars[0].instrument == instrument && bars[0].endMs == at then Some(bars[0])
    else FindBar(bars[1..], instrument, at)
  }

  // ----- Prices and returns -----

  /** A bar's close; with a cutoff, only if the bar had ended and was available by then. */
  function Price(x: Input, instrument: nat, at: nat, cutoff: Option<nat>): Option<real> {
    var bar := FindBar(x.bars, instrument, at);
    if bar.None? || bar.value.availableAt.None? then None
    else if cutoff.Some? && (bar.value.endMs > cutoff.value || bar.value.availableAt.value > cutoff.value) then None
    else Some(bar.value.close)
  }

  function Return(x: Input, instrument: nat, from: nat, to: nat, cutoff: Option<nat>): Option<real> {
    var start, end := Price(x, instrument, from, cutoff), Price(x, instrument, to, cutoff);
    if start.None? || end.None? || start.value == 0.0 then None else Some((end.value / start.value - 1.0) * 10000.0)
  }

  datatype Returns = Returns(own: real, market: real, sector: real)

  function ReturnsOver(x: Input, from: nat, to: nat, cutoff: Option<nat>): Option<Returns> {
    var own, market, sector := Return(x, x.instrument, from, to, cutoff), Return(x, SPY, from, to, cutoff), Return(x, x.sector, from, to, cutoff);
    if own.None? || market.None? || sector.None? then None else Some(Returns(own.value, market.value, sector.value))
  }

  // ----- The protocol -----

  datatype Horizon = Minutes(n: nat) | AtClose | NextSession

  const HORIZONS := [Minutes(5), Minutes(15), Minutes(30), Minutes(60), AtClose, NextSession]

  datatype Hypothesis = H1 | H2

  datatype Variant = Variant(id: nat, hypothesis: Hypothesis, direction: int, threshold: real)

  datatype Protocol = Protocol(
    variants: seq<Variant>, simultaneity: nat, entryDelay: nat, halfCost: real, marketWeight: real, sectorWeight: real,
    universe: set<nat>, excludesStopped: bool, boundaries: seq<nat>)

  predicate ProtocolOk(p: Protocol) {
    && |p.boundaries| == 4 && p.boundaries[0] < p.boundaries[1] < p.boundaries[2] < p.boundaries[3]
    && p.entryDelay >= 60000 && |p.variants| > 0
    && (forall i, j :: 0 <= i < j < |p.variants| ==> p.variants[i].id != p.variants[j].id)
    && forall i :: 0 <= i < |p.variants| ==> p.variants[i].direction == 1 || p.variants[i].direction == -1
  }

  /** A window `[boundaries[index], boundaries[index + 1])`, or no partition at all. */
  datatype Partition = Window(index: nat) | Excluded

  const PARTITIONS := [Window(0), Window(1), Window(2), Excluded]

  function PartitionOf(p: Protocol, x: Input): (r: Partition)
    requires ProtocolOk(p)
    ensures r in PARTITIONS
    ensures r.Window? ==> p.boundaries[r.index] <= x.decision < p.boundaries[r.index + 1]
  {
    if x.ticker !in p.universe || x.repair || (p.excludesStopped && x.stopped) then Excluded
    else if p.boundaries[0] <= x.decision < p.boundaries[1] then Window(0)
    else if p.boundaries[1] <= x.decision < p.boundaries[2] then Window(1)
    else if p.boundaries[2] <= x.decision < p.boundaries[3] then Window(2)
    else Excluded
  }

  predicate Eligible(p: Protocol, x: Input) {
    x.ticker in p.universe && !x.repair && !(p.excludesStopped && x.stopped)
  }

  /** An input is in the one window its decision falls into if it is eligible, and in none otherwise. */
  lemma PartitionExactly(p: Protocol, x: Input, n: nat)
    requires ProtocolOk(p) && n < 3
    ensures PartitionOf(p, x) == Window(n) <==> Eligible(p, x) && p.boundaries[n] <= x.decision < p.boundaries[n + 1]
    ensures PartitionOf(p, x) == Excluded <==> !Eligible(p, x) || x.decision < p.boundaries[0] || p.boundaries[3] <= x.decision
  {
    if n == 1 { } else if n == 2 { }
  }

  // ----- Features -----

  /** One entry of a feature's `dependencies`, with the time it became usable. */
  datatype Dependency = Dependency(key: nat, lane: Lane, available: bool, usable: nat)

  function Ready(m: Member, r: Option<Record>): Option<(nat, nat)> {
    if r.Some? && r.value.normalized.Some? && r.value.ready.Some? && m.publication.Some?
    then Some((r.value.normalized.value, r.value.ready.value)) else None
  }

  predicate AvailableBy(m: Member, normalized: nat, ready: nat, cutoff: nat) {
    && (m.publication.Some? ==> m.publication.value <= cutoff)
    && m.observed <= cutoff && m.retrieved <= cutoff && normalized <= cutoff && ready <= cutoff
    && m.retrieved >= m.observed && normalized >= m.retrieved && ready >= normalized
  }

  function UsableAt(m: Member, ready: nat): nat {
    Max(Max(m.observed, m.retrieved), ready) as nat
  }

  function DependencyOf(x: Input, m: Member): Dependency {
    var clocks := Ready(m, FindRecord(x.records, m.key));
    if clocks.None? then Dependency(m.key, m.lane, false, 0)
    else Dependency(m.key, m.lane, AvailableBy(m, clocks.value.0, clocks.value.1, x.cutoff), UsableAt(m, clocks.value.1))
  }

  function DependenciesOf(x: Input, ms: seq<Member>): (r: seq<Dependency>)
    ensures |r| == |ms| && forall i :: 0 <= i < |r| ==> r[i] == DependencyOf(x, ms[i])
  {
    if ms == [] then [] else [DependencyOf(x, ms[0])] + DependenciesOf(x, ms[1..])
  }

  function FindDependency(ds: seq<Dependency>, key: nat): Option<Dependency> {
    if ds == [] then None else if ds[0].key == key then Some(ds[0]) else FindDependency(ds[1..], key)
  }

  function UsableTimes(ds: seq<Dependency>, ms: seq<Member>, lane: Lane): seq<nat> {
    if ms == [] then []
    else
      OwnTime(ds, ms[0], lane) + UsableTimes(ds, ms[1..], lane)
  }

  function OwnTime(ds: seq<Dependency>, m: Member, lane: Lane): seq<nat> {
    var d := FindDependency(ds, m.key);
    if m.lane == lane && d.Some? && d.value.available then [d.value.usable] else []
  }

  function Least(s: seq<nat>): (r: Option<nat>)
    ensures r.None? <==> s == []
    ensures r.Some? ==> r.value in s && forall t :: t in s ==> r.value <= t
  {
    if s == [] then None
    else
      var rest := Least(s[1..]);
      assert forall t :: t in s <==> t == s[0] || t in s[1..];
      if rest.None? || s[0] <= rest.value then Some(s[0]) else rest
  }

  /** `usableTime`: when a lane's first usable evidence was at hand. */
  function UsableTime(x: Input, lane: Lane): Option<nat> {
    Least(UsableTimes(DependenciesOf(x, x.members), x.members, lane))
  }

  datatype SourceOrder = SecFirst | IssuerFirst | NearSimultaneous

  function SourceOrderOf(p: Protocol, x: Input): Option<SourceOrder> {
    var sec, ir := UsableTime(x, Sec), UsableTime(x, IssuerIr);
    if sec.None? || ir.None? then None
    else if (if sec.value < ir.value then ir.value - sec.value else sec.value - ir.value) <= p.simultaneity then Some(NearSimultaneous)
    else if sec.value < ir.value then Some(SecFirst) else Some(IssuerFirst)
  }

  function Benchmark(p: Protocol, r: Returns): real {
    r.market * p.marketWeight + r.sector * p.sectorWeight
  }

  function InitialReaction(p: Protocol, x: Input): Option<real> {
    var r := ReturnsOver(x, x.initialStart, x.cutoff, Some(x.cutoff));
    if r.None? then None else Some(r.value.own - Benchmark(p, r.value))
  }

  // ----- No look-ahead -----

  /** A member with its record, everything about them known by the cutoff. */
  predicate KnownMember(x: Input, m: Member, r: Record) {
    && m in x.members && r in x.records && r.key == m.key
    && m.publication.Some? && r.normalized.Some? && r.ready.Some?
    && m.publication.value <= x.cutoff && m.observed <= x.cutoff && m.retrieved <= x.cutoff
    && r.normalized.value <= x.cutoff && r.ready.value <= x.cutoff
  }

  predicate KnownBar(x: Input, b: Bar) {
    b in x.bars && b.endMs <= x.cutoff && b.availableAt.Some? && b.availableAt.value <= x.cutoff
  }

  /** Two inputs that agree on the question asked and on everything known by the cutoff. */
  ghost predicate SameKnowledge(a: Input, b: Input) {
    && a.cutoff == b.cutoff && a.initialStart == b.initialStart && a.instrument == b.instrument && a.sector == b.sector
    && (forall bar :: KnownBar(a, bar) <==> KnownBar(b, bar))
    && (forall m, r :: KnownMember(a, m, r) <==> KnownMember(b, m, r))
  }

  lemma {:induction false} BarFound(bars: seq<Bar>, instrument: nat, at: nat, bar: Bar)
    requires BarsSound(bars)
    ensures FindBar(bars, instrument, at) == Some(bar) <==> bar in bars && bar.instrument == instrument && bar.endMs == at
  {
    if bars != [] {
      assert bars == [bars[0]] + bars[1..];
      assert forall i :: 0 <= i < |bars| - 1 ==> bars[1..][i] == bars[i + 1];
      BarFound(bars[1..], instrument, at, bar);
    }
  }

  /** A price asked with the cutoff is the close of a bar known by then. */
  lemma PriceKnown(x: Input, instrument: nat, at: nat, close: real)
    requires BarsSound(x.bars)
    ensures Price(x, instrument, at, Some(x.cutoff)) == Some(close)
            <==> exists bar :: KnownBar(x, bar) && bar.instrument == instrument && bar.endMs == at && bar.close == close
  {
    var found := FindBar(x.bars, instrument, at);
    hide BarsSound, FindBar;
    if found.Some? { BarFound(x.bars, instrument, at, found.value); }
    if bar :| KnownBar(x, bar) && bar.instrument == instrument && bar.endMs == at && bar.close == close {
      BarFound(x.bars, instrument, at, bar);
    }
  }

  lemma SamePrice(a: Input, b: Input, instrument: nat, at: nat)
    requires BarsSound(a.bars) && BarsSound(b.bars) && SameKnowledge(a, b)
    ensures Price(a, instrument, at, Some(a.cutoff)) == Price(b, instrument, at, Some(b.cutoff))
  {
    var pa, pb := Price(a, instrument, at, Some(a.cutoff)), Price(b, instrument, at, Some(b.cutoff));
    hide BarsSound, Price, KnownBar, KnownMember;
    if pa.Some? { PriceKnown(a, instrument, at, pa.value); PriceKnown(b, instrument, at, pa.value); }
    if pb.Some? { PriceKnown(a, instrument, at, pb.value); PriceKnown(b, instrument, at, pb.value); }
  }

  lemma {:induction false} RecordFound(rs: seq<Record>, key: nat, r: Record)
    requires forall i, j :: 0 <= i < j < |rs| ==> rs[i].key != rs[j].key
    ensures FindRecord(rs, key) == Some(r) <==> r in rs && r.key == key
  {
    if rs != [] {
      assert rs == [rs[0]] + rs[1..];
      assert forall i :: 0 <= i < |rs| - 1 ==> rs[1..][i] == rs[i + 1];
      RecordFound(rs[1..], key, r);
    }
  }

  /** The first member under a key, whose clocks stand for every member under it. */
  function FirstUnder(ms: seq<Member>, key: nat): (r: Option<Member>)
    ensures r.Some? ==> r.value in ms && r.value.key == key
    ensures r.None? ==> forall m :: m in ms ==> m.key != key
  {
    if ms == [] then None else if ms[0].key == key then Some(ms[0]) else FirstUnder(ms[1..], key)
  }

  /** A member's key finds the dependency of the first member under that key. */
  lemma {:induction false} DependencyFound(x: Input, ms: seq<Member>, key: nat)
    requires FirstUnder(ms, key).Some?
    ensures FindDependency(DependenciesOf(x, ms), key) == Some(DependencyOf(x, FirstUnder(ms, key).value))
  {
    if ms[0].key != key {
      DependencyFound(x, ms[1..], key);
      assert DependenciesOf(x, ms)[1..] == DependenciesOf(x, ms[1..]);
    }
  }

  lemma {:induction false} TimesAre(ds: seq<Dependency>, ms: seq<Member>, lane: Lane, t: nat)
    ensures t in UsableTimes(ds, ms, lane)
            <==> exists i :: 0 <= i < |ms| && TimeFrom(ds, ms[i], lane, t)
  {
    if ms != [] {
      TimesAre(ds, ms[1..], lane, t);
      if i :| 0 <= i < |ms| && TimeFrom(ds, ms[i], lane, t) {
        if i > 0 { assert TimeFrom(ds, ms[1..][i - 1], lane, t); }
      }
      if i :| 0 <= i < |ms| - 1 && TimeFrom(ds, ms[1..][i], lane, t) { assert TimeFrom(ds, ms[i + 1], lane, t); }
      if TimeFrom(ds, ms[0], lane, t) { }
    }
  }

  predicate TimeFrom(ds: seq<Dependency>, m: Member, lane: Lane, t: nat) {
    var d := FindDependency(ds, m.key);
    m.lane == lane && d.Some? && d.value.available && d.value.usable == t
  }

  /** A usable time comes from a member and record known by the cutoff, their clocks in order. */
  ghost predicate KnownTime(x: Input, lane: Lane, t: nat) {
    exists m, r :: KnownMember(x, m, r) && KnownAt(m, r, lane, t)
  }

  predicate KnownAt(m: Member, r: Record, lane: Lane, t: nat)
  {
    && m.lane == lane && r.normalized.Some? && r.ready.Some? && m.retrieved >= m.observed
    && r.normalized.value >= m.retrieved && r.ready.value >= r.normalized.value && t == UsableAt(m, r.ready.value)
  }

  /** A member has a usable time when the first member under its key is known by the cutoff, its clocks in order. */
  predicate KnownThrough(x: Input, m: Member, r: Record, lane: Lane, t: nat) {
    var first := FirstUnder(x.members, m.key);
    m.lane == lane && first.Some? && KnownMember(x, first.value, r) && KnownAt(first.value, r, first.value.lane, t)
  }

  lemma TimeFromKnown(x: Input, m: Member, lane: Lane, t: nat)
    requires RecordsBound(x) && m in x.members
    ensures TimeFrom(DependenciesOf(x, x.members), m, lane, t) <==> exists r :: KnownThrough(x, m, r, lane, t)
  {
    var first := FirstUnder(x.members, m.key).value;
    DependencyFound(x, x.members, m.key);
    var found := FindRecord(x.records, first.key);
    assert found.Some?;
    RecordFound(x.records, first.key, found.value);
    hide FindRecord, DependenciesOf, FindDependency, FirstUnder;
    if r :| KnownThrough(x, m, r, lane, t) { RecordFound(x.records, first.key, r); }
    if TimeFrom(DependenciesOf(x, x.members), m, lane, t) { assert KnownThrough(x, m, found.value, lane, t); }
  }

  /** Every frozen input: the usable times of a lane are those its members have through the first member under their key. */
  lemma UsableTimesExactly(x: Input, lane: Lane, t: nat)
    requires RecordsBound(x)
    ensures t in UsableTimes(DependenciesOf(x, x.members), x.members, lane)
            <==> exists m, r :: m in x.members && KnownThrough(x, m, r, lane, t)
  {
    hide RecordsBound, DependenciesOf, UsableTimes, TimeFrom, KnownThrough;
    TimesAre(DependenciesOf(x, x.members), x.members, lane, t);
    forall i | 0 <= i < |x.members|
      ensures TimeFrom(DependenciesOf(x, x.members), x.members[i], lane, t) <==> exists r :: KnownThrough(x, x.members[i], r, lane, t) {
      TimeFromKnown(x, x.members[i], lane, t);
    }
  }

  lemma {:induction false} FirstIsOwn(ms: seq<Member>, i: nat)
    requires i < |ms| && forall a, b :: 0 <= a < b < |ms| ==> ms[a].key != ms[b].key
    ensures FirstUnder(ms, ms[i].key) == Some(ms[i])
  {
    if i > 0 {
      assert ms[0].key != ms[i].key;
      assert forall j :: 0 <= j < |ms| - 1 ==> ms[1..][j] == ms[j + 1];
      FirstIsOwn(ms[1..], i - 1);
    }
  }

  /** With members unique, every one of them stands for itself. */
  lemma UsableTimesKnown(x: Input, lane: Lane, t: nat)
    requires RecordsBound(x) && UniqueMembers(x)
    ensures t in UsableTimes(DependenciesOf(x, x.members), x.members, lane) <==> KnownTime(x, lane, t)
  {
    UsableTimesExactly(x, lane, t);
    forall m | m in x.members ensures FirstUnder(x.members, m.key) == Some(m) {
      var i :| 0 <= i < |x.members| && x.members[i] == m;
      FirstIsOwn(x.members, i);
    }
    hide RecordsBound, UniqueMembers, DependenciesOf, UsableTimes, FirstUnder;
    if KnownTime(x, lane, t) {
      var m, r :| KnownMember(x, m, r) && KnownAt(m, r, lane, t);
      assert KnownThrough(x, m, r, lane, t);
    }
    if m, r :| m in x.members && KnownThrough(x, m, r, lane, t) { assert KnownMember(x, m, r) && KnownAt(m, r, lane, t); }
  }

  /** The first time a lane's evidence was known to be at hand. */
  ghost predicate FirstKnown(x: Input, lane: Lane, t: nat) {
    KnownTime(x, lane, t) && forall u: nat :: KnownTime(x, lane, u) ==> t <= u
  }

  lemma FirstIsFound(x: Input, lane: Lane, t: nat)
    requires RecordsBound(x) && UniqueMembers(x)
    ensures UsableTime(x, lane) == Some(t) <==> FirstKnown(x, lane, t)
    ensures UsableTime(x, lane).None? <==> !exists u: nat :: KnownTime(x, lane, u)
  {
    hide RecordsBound, UniqueMembers, KnownTime, DependenciesOf, UsableTimes;
    var times := UsableTimes(DependenciesOf(x, x.members), x.members, lane);
    forall u: nat ensures u in times <==> KnownTime(x, lane, u) { UsableTimesKnown(x, lane, u); }
    if times != [] { assert KnownTime(x, lane, times[0]); }
  }

  /**
    The source order, by what was known: one side is first exactly when its first known time precedes the
    other's by more than the protocol calls simultaneous.
   */
  lemma SourceOrderKnown(p: Protocol, x: Input)
    requires RecordsBound(x) && UniqueMembers(x)
    ensures SourceOrderOf(p, x) == Some(SecFirst) <==>
              exists s: nat, i: nat :: FirstKnown(x, Sec, s) && FirstKnown(x, IssuerIr, i) && s + p.simultaneity < i
    ensures SourceOrderOf(p, x) == Some(IssuerFirst) <==>
              exists s: nat, i: nat :: FirstKnown(x, Sec, s) && FirstKnown(x, IssuerIr, i) && i + p.simultaneity < s
    ensures SourceOrderOf(p, x).None? <==>
              !(exists s: nat :: KnownTime(x, Sec, s)) || !(exists i: nat :: KnownTime(x, IssuerIr, i))
  {
    hide RecordsBound, UniqueMembers, FirstKnown, KnownTime, UsableTime;
    forall t: nat
      ensures UsableTime(x, Sec) == Some(t) <==> FirstKnown(x, Sec, t)
      ensures UsableTime(x, IssuerIr) == Some(t) <==> FirstKnown(x, IssuerIr, t) {
      FirstIsFound(x, Sec, t);
      FirstIsFound(x, IssuerIr, t);
    }
    FirstIsFound(x, Sec, 0);
    FirstIsFound(x, IssuerIr, 0);
    if UsableTime(x, Sec).Some? && UsableTime(x, IssuerIr).Some? {
      assert FirstKnown(x, Sec, UsableTime(x, Sec).value) && FirstKnown(x, IssuerIr, UsableTime(x, IssuerIr).value);
    }
  }

  lemma SameUsableTime(a: Input, b: Input, lane: Lane)
    requires RecordsBound(a) && RecordsBound(b) && UniqueMembers(a) && UniqueMembers(b) && SameKnowledge(a, b)
    ensures UsableTime(a, lane) == UsableTime(b, lane)
  {
    hide RecordsBound, UniqueMembers, DependenciesOf, UsableTimes, KnownMember, KnownAt, KnownBar;
    var ta, tb := UsableTimes(DependenciesOf(a, a.members), a.members, lane), UsableTimes(DependenciesOf(b, b.members), b.members, lane);
    forall t ensures t in ta <==> t in tb {
      if t >= 0 {
        UsableTimesKnown(a, lane, t);
        UsableTimesKnown(b, lane, t);
      }
    }
    if ta != [] { assert ta[0] in tb; }
    if tb != [] { assert tb[0] in ta; }
  }

  /** No look-ahead: what was not known by the cutoff changes neither the initial reaction nor the source order. */
  lemma NoLookAhead(p: Protocol, a: Input, b: Input)
    requires Frozen(a) && Frozen(b) && UniqueMembers(a) && UniqueMembers(b) && SameKnowledge(a, b)
    ensures InitialReaction(p, a) == InitialReaction(p, b) && SourceOrderOf(p, a) == SourceOrderOf(p, b)
  {
    hide *;
    FrozenParts(a);
    FrozenParts(b);
    SameUsableTime(a, b, Sec);
    SameUsableTime(a, b, IssuerIr);
    SameOrder(p, a, b);
    SameQuestion(a, b);
    SameReturn(a, b, a.instrument);
    SameReturn(a, b, SPY);
    SameReturn(a, b, a.sector);
    SameReaction(p, a, b);
  }

  lemma FrozenParts(x: Input)
    requires Frozen(x)
    ensures RecordsBound(x) && BarsSound(x.bars)
  {
    hide RecordsBound, BarsSound;
  }

  lemma SameQuestion(a: Input, b: Input)
    requires SameKnowledge(a, b)
    ensures a.cutoff == b.cutoff && a.initialStart == b.initialStart && a.instrument == b.instrument && a.sector == b.sector
  {
    hide KnownMember, KnownBar;
  }

  lemma SameOrder(p: Protocol, a: Input, b: Input)
    requires UsableTime(a, Sec) == UsableTime(b, Sec) && UsableTime(a, IssuerIr) == UsableTime(b, IssuerIr)
    ensures SourceOrderOf(p, a) == SourceOrderOf(p, b)
  {
    hide UsableTime;
  }

  lemma SameReturn(a: Input, b: Input, instrument: nat)
    requires BarsSound(a.bars) && BarsSound(b.bars) && SameKnowledge(a, b)
    ensures Return(a, instrument, a.initialStart, a.cutoff, Some(a.cutoff)) == Return(b, instrument, b.initialStart, b.cutoff, Some(b.cutoff))
  {
    SameQuestion(a, b);
    SamePrice(a, b, instrument, a.initialStart);
    SamePrice(a, b, instrument, a.cutoff);
    hide Price, BarsSound, SameKnowledge;
  }

  lemma SameReaction(p: Protocol, a: Input, b: Input)
    requires a.cutoff == b.cutoff && a.initialStart == b.initialStart && a.instrument == b.instrument && a.sector == b.sector
    requires forall n :: n in {a.instrument, SPY, a.sector} ==>
               Return(a, n, a.initialStart, a.cutoff, Some(a.cutoff)) == Return(b, n, b.initialStart, b.cutoff, Some(b.cutoff))
    ensures InitialReaction(p, a) == InitialReaction(p, b)
  {
    hide Return;
  }

  // ----- Why members must be unique -----

  const TIMELY := Member(1, Sec, Some(10), 10, 10)
  const UNDATED := Member(1, Sec, None, 10, 10)
  const ISSUER := Member(2, IssuerIr, Some(10), 10, 10)

  function InputWith(members: seq<Member>): Input {
    Input(1, 1, 2, members, [Record(1, Some(10), Some(10)), Record(2, Some(10), Some(10)), Record(3, None, None)], [], 50, 50, 0, 60, 70, false, false)
  }

  lemma FrozenWith(ms: seq<Member>)
    requires |ms| == 3 && forall i :: 0 <= i < 3 ==> ms[i] in {TIMELY, UNDATED, ISSUER}
    ensures Frozen(InputWith(ms))
  {
  }

  lemma TimesOfThree(x: Input, lane: Lane)
    requires |x.members| == 3
    ensures var ds := DependenciesOf(x, x.members);
            && |ds| == 3 && ds[0] == DependencyOf(x, x.members[0]) && ds[1] == DependencyOf(x, x.members[1])
            && UsableTimes(ds, x.members, lane) == OwnTime(ds, x.members[0], lane) + OwnTime(ds, x.members[1], lane) + OwnTime(ds, x.members[2], lane)
  {
    hide OwnTime, DependencyOf, FindDependency;
    var ds, ms := DependenciesOf(x, x.members), x.members;
    assert ms[1..][1..] == ms[2..] && ms[2..][1..] == [];
    assert UsableTimes(ds, ms[2..], lane) == OwnTime(ds, ms[2], lane) + UsableTimes(ds, [], lane);
    assert UsableTimes(ds, ms[1..], lane) == OwnTime(ds, ms[1], lane) + UsableTimes(ds, ms[2..], lane);
  }

  lemma FoundAmong(ds: seq<Dependency>)
    requires |ds| == 3
    ensures FindDependency(ds, ds[0].key) == Some(ds[0])
    ensures ds[0].key != ds[2].key && ds[1].key != ds[2].key ==> FindDependency(ds, ds[2].key) == Some(ds[2])
  {
    var one, two := ds[1..], ds[1..][1..];
    assert two[0] == ds[2] && one[0] == ds[1];
    if ds[0].key != ds[2].key && ds[1].key != ds[2].key {
      assert FindDependency(two, ds[2].key) == Some(ds[2]);
      assert FindDependency(one, ds[2].key) == Some(ds[2]);
    }
  }

  /** When the first member decides the key's dependency. */
  lemma TimesWith(first: Member, second: Member)
    requires (first == TIMELY && second == UNDATED) || (first == UNDATED && second == TIMELY)
    ensures UsableTime(InputWith([first, second, ISSUER]), Sec) == if first == TIMELY then Some(10) else None
    ensures UsableTime(InputWith([first, second, ISSUER]), IssuerIr) == Some(10)
  {
    var x := InputWith([first, second, ISSUER]);
    var ds := DependenciesOf(x, x.members);
    TimesOfThree(x, Sec);
    TimesOfThree(x, IssuerIr);
    FoundAmong(ds);
    assert FindRecord(x.records, 1) == Some(x.records[0]);
    assert FindRecord(x.records, 2) == Some(x.records[1]) by { assert x.records[1..][0] == x.records[1]; }
    hide FindRecord, FindDependency, UsableTimes, DependenciesOf;
  }

  /** Freezing accepts two members under one key; then the order they are listed in, not what was known, decides the feature. */
  lemma DuplicateKeysLookAhead(p: Protocol)
    ensures var a, b := InputWith([TIMELY, UNDATED, ISSUER]), InputWith([UNDATED, TIMELY, ISSUER]);
            && Frozen(a) && Frozen(b) && SameKnowledge(a, b)
            && SourceOrderOf(p, a) == Some(NearSimultaneous) && SourceOrderOf(p, b) == None
  {
    var a, b := InputWith([TIMELY, UNDATED, ISSUER]), InputWith([UNDATED, TIMELY, ISSUER]);
    FrozenWith(a.members);
    FrozenWith(b.members);
    TimesWith(TIMELY, UNDATED);
    TimesWith(UNDATED, TIMELY);
    hide UsableTime, Frozen;
    assert forall m :: m in a.members <==> m in b.members;
  }

  // ----- Labels -----

  datatype Status = Available | Missing | Purged | LabelExcluded

  /** A label, by the input it is for: the feature's identity fixes the input's. */
  datatype Label = Label(input: Input, horizon: Horizon, entry: nat, exit: nat, status: Status, abnormal: Option<real>)

  function EntryOf(p: Protocol, x: Input): nat {
    (x.decision + p.entryDelay + 59999) / 60000 * 60000
  }

  function ExitOf(x: Input, horizon: Horizon): nat {
    match horizon
    case Minutes(n) => x.decision + n * 60000
    case AtClose => x.closeMs
    case NextSession => x.nextSession
  }

  function LabelOf(p: Protocol, x: Input, horizon: Horizon): Label
    requires ProtocolOk(p)
  {
    var entry, exit, part := EntryOf(p, x), ExitOf(x, horizon), PartitionOf(p, x);
    if part.Excluded? then Label(x, horizon, entry, exit, LabelExcluded, None)
    else if exit >= p.boundaries[part.index + 1] || entry >= p.boundaries[part.index + 1] || x.initialStart < p.boundaries[part.index]
    then Label(x, horizon, entry, exit, Purged, None)
    else if entry >= exit then Label(x, horizon, entry, exit, Missing, None)
    else
      var r := ReturnsOver(x, entry, exit, None);
      if r.None? then Label(x, horizon, entry, exit, Missing, None)
      else Label(x, horizon, entry, exit, Available, Some(r.value.own - Benchmark(p, r.value)))
  }

  /** An available label's whole span, from its feature's first price to its exit, lies inside its partition. */
  lemma SpanInside(p: Protocol, x: Input, horizon: Horizon)
    requires ProtocolOk(p) && Frozen(x) && LabelOf(p, x, horizon).status == Available
    ensures var l, part := LabelOf(p, x, horizon), PartitionOf(p, x);
            part.Window? && part.index < 3 && l.abnormal.Some?
            && p.boundaries[part.index] <= x.initialStart < x.cutoff <= x.decision < l.entry < l.exit < p.boundaries[part.index + 1]
  {
    hide ReturnsOver, RecordsBound, BarsSound;
  }

  /** No leakage: available labels of an earlier and a later partition have disjoint spans, the earlier one over first. */
  lemma NoLeakage(p: Protocol, a: Input, b: Input, ha: Horizon, hb: Horizon)
    requires ProtocolOk(p) && Frozen(a) && Frozen(b)
    requires LabelOf(p, a, ha).status == Available && LabelOf(p, b, hb).status == Available
    requires PartitionOf(p, a) != PartitionOf(p, b)
    ensures LabelOf(p, a, ha).exit < b.initialStart || LabelOf(p, b, hb).exit < a.initialStart
  {
    SpanInside(p, a, ha);
    SpanInside(p, b, hb);
    hide LabelOf, Frozen;
  }

  // ----- Trials -----

  datatype Trial = Trial(variant: nat, scored: Label, partition: Partition, direction: Option<int>, gross: Option<real>, net: Option<real>)

  function Sign(r: real): int {
    if r > 0.0 then 1 else if r < 0.0 then -1 else 0
  }

  /** The side a variant takes on an input, from its features alone. */
  function DirectionOf(p: Protocol, v: Variant, x: Input): Option<int> {
    match v.hypothesis
    case H1 =>
      var reaction := InitialReaction(p, x);
      if reaction.None? || (if reaction.value < 0.0 then -reaction.value else reaction.value) <= v.threshold then None
      else Some(Sign(reaction.value) * v.direction)
    case H2 =>
      var order := SourceOrderOf(p, x);
      if order.None? || order.value == NearSimultaneous then None
      else Some((if order.value == SecFirst then 1 else -1) * v.direction)
  }

  function CostOf(p: Protocol): real {
    2.0 * p.halfCost
  }

  /** One trial: completed exactly when the label is available and the variant takes a side. */
  function TrialOf(p: Protocol, x: Input, horizon: Horizon, v: Variant): (r: Trial)
    requires ProtocolOk(p)
    ensures r.net.Some? <==> r.gross.Some?
    ensures r.gross.Some? <==> LabelOf(p, x, horizon).status == Available && DirectionOf(p, v, x).Some?
  {
    var scored, direction := LabelOf(p, x, horizon), DirectionOf(p, v, x);
    var gross := if scored.abnormal.Some? && direction.Some? then Some(direction.value as real * scored.abnormal.value) else None;
    Trial(v.id, scored, PartitionOf(p, x), direction, gross, if gross.None? then None else Some(gross.value - CostOf(p)))
  }

  /** What side a trial takes is settled by what was known by the cutoff, whatever happened later. */
  lemma DirectionNoLookAhead(p: Protocol, a: Input, b: Input, ha: Horizon, hb: Horizon, v: Variant)
    requires ProtocolOk(p) && Frozen(a) && Frozen(b) && UniqueMembers(a) && UniqueMembers(b) && SameKnowledge(a, b)
    ensures TrialOf(p, a, ha, v).direction == TrialOf(p, b, hb, v).direction
  {
    NoLookAhead(p, a, b);
    hide InitialReaction, SourceOrderOf, LabelOf, Frozen, UniqueMembers, SameKnowledge;
  }

  /** A side is taken exactly on a reaction beyond the threshold either way, or on a source that was clearly first. */
  lemma DirectionExactly(p: Protocol, v: Variant, x: Input)
    requires v.threshold >= 0.0
    ensures v.hypothesis == H1 ==>
              (DirectionOf(p, v, x).Some? <==>
                 InitialReaction(p, x).Some? && (InitialReaction(p, x).value > v.threshold || InitialReaction(p, x).value < -v.threshold))
    ensures v.hypothesis == H1 && DirectionOf(p, v, x).Some? ==>
              DirectionOf(p, v, x).value == (if InitialReaction(p, x).value > 0.0 then v.direction else -v.direction)
    ensures v.hypothesis == H2 ==>
              (DirectionOf(p, v, x).Some? <==> SourceOrderOf(p, x) == Some(SecFirst) || SourceOrderOf(p, x) == Some(IssuerFirst))
    ensures v.hypothesis == H2 && DirectionOf(p, v, x).Some? ==>
              DirectionOf(p, v, x).value == (if SourceOrderOf(p, x) == Some(SecFirst) then v.direction else -v.direction)
  {
    hide InitialReaction, SourceOrderOf;
  }

  /** A completed trial of a followed reaction earns the abnormal return if reaction and variant point up together
      or down together, and its opposite otherwise; one of the source order likewise. Costs are taken off once. */
  lemma TrialEarns(p: Protocol, x: Input, horizon: Horizon, v: Variant)
    requires ProtocolOk(p) && (v.direction == 1 || v.direction == -1) && v.threshold >= 0.0
    requires TrialOf(p, x, horizon, v).gross.Some?
    ensures var t := TrialOf(p, x, horizon, v);
            var abnormal := LabelOf(p, x, horizon).abnormal.value;
            var up := if v.hypothesis == H1 then InitialReaction(p, x).value > 0.0 else SourceOrderOf(p, x) == Some(SecFirst);
            && (v.hypothesis == H1 ==> InitialReaction(p, x).Some? && InitialReaction(p, x).value != 0.0)
            && (v.hypothesis == H2 ==> SourceOrderOf(p, x) in [Some(SecFirst), Some(IssuerFirst)])
            && t.gross == Some(if up == (v.direction == 1) then abnormal else -abnormal)
            && t.net == Some(t.gross.value - 2.0 * p.halfCost)
  {
    hide LabelOf, InitialReaction, SourceOrderOf, PartitionOf;
    LabelParts(p, x, horizon);
    var d, abnormal := DirectionOf(p, v, x).value, LabelOf(p, x, horizon).abnormal.value;
    assert d == 1 || d == -1;
    Opposite(abnormal);
    assert TrialOf(p, x, horizon, v).gross == Some(if d == 1 then abnormal else -abnormal);
  }

  lemma LabelParts(p: Protocol, x: Input, horizon: Horizon)
    requires ProtocolOk(p) && LabelOf(p, x, horizon).status == Available
    ensures LabelOf(p, x, horizon).abnormal.Some?
  {
    hide ReturnsOver, PartitionOf;
  }

  lemma Opposite(r: real)
    ensures 1 as real * r == r && (-1) as real * r == -r
  {
  }

  /** A price without a cutoff is the close of the one bar that ended then, once it was available at all. */
  lemma PriceIsClose(x: Input, instrument: nat, at: nat, close: real)
    requires BarsSound(x.bars)
    ensures Price(x, instrument, at, None) == Some(close)
            <==> exists bar :: bar in x.bars && bar.instrument == instrument && bar.endMs == at && bar.availableAt.Some? && bar.close == close
  {
    var found := FindBar(x.bars, instrument, at);
    hide BarsSound, FindBar;
    if found.Some? { BarFound(x.bars, instrument, at, found.value); }
    if bar :| bar in x.bars && bar.instrument == instrument && bar.endMs == at && bar.availableAt.Some? && bar.close == close {
      BarFound(x.bars, instrument, at, bar);
    }
  }

  /** The bars an instrument's return is read off. */
  predicate Traded(x: Input, instrument: nat, from: nat, to: nat, first: Bar, last: Bar) {
    && first in x.bars && first.instrument == instrument && first.endMs == from && first.availableAt.Some?
    && last in x.bars && last.instrument == instrument && last.endMs == to && last.availableAt.Some?
  }

  function Gain(first: Bar, last: Bar): real
    requires first.close > 0.0
  {
    (last.close - first.close) / first.close * 10000.0
  }

  function Blend(a: real, u: real, b: real, v: real): real {
    a * u + b * v
  }

  lemma ReturnIsGain(x: Input, instrument: nat, from: nat, to: nat, r: real) returns (first: Bar, last: Bar)
    requires BarsSound(x.bars) && Return(x, instrument, from, to, None) == Some(r)
    ensures Traded(x, instrument, from, to, first, last) && first.close > 0.0 && r == Gain(first, last)
  {
    var a, b := Price(x, instrument, from, None).value, Price(x, instrument, to, None).value;
    PriceIsClose(x, instrument, from, a);
    PriceIsClose(x, instrument, to, b);
    hide *;
    first :| first in x.bars && first.instrument == instrument && first.endMs == from && first.availableAt.Some? && first.close == a;
    last :| last in x.bars && last.instrument == instrument && last.endMs == to && last.availableAt.Some? && last.close == b;
    GainIs(a, b);
  }

  lemma GainIs(a: real, b: real)
    requires a > 0.0
    ensures (b / a - 1.0) * 10000.0 == (b - a) / a * 10000.0
  {
    var q, s := b / a, (b - a) / a;
    assert q * a == b && s * a == b - a;
    assert (q - 1.0 - s) * a == 0.0;
    ZeroProduct(q - 1.0 - s, a);
  }

  lemma ZeroProduct(x: real, a: real)
    requires x * a == 0.0 && a > 0.0
    ensures x == 0.0
  {
    Positive(x, a);
    Positive(-x, a);
  }

  lemma Positive(x: real, a: real)
    requires a > 0.0
    ensures x > 0.0 ==> x * a > 0.0
  {
  }

  /** An available label is the instrument's gain from entry to exit, less the weighted gains of market and sector. */
  lemma LabelIsAbnormalGain(p: Protocol, x: Input, horizon: Horizon) returns (own: (Bar, Bar), market: (Bar, Bar), sector: (Bar, Bar))
    requires ProtocolOk(p) && Frozen(x) && LabelOf(p, x, horizon).status == Available
    ensures var l := LabelOf(p, x, horizon);
            && Traded(x, x.instrument, l.entry, l.exit, own.0, own.1) && Traded(x, SPY, l.entry, l.exit, market.0, market.1)
            && Traded(x, x.sector, l.entry, l.exit, sector.0, sector.1)
            && own.0.close > 0.0 && market.0.close > 0.0 && sector.0.close > 0.0
            && l.abnormal == Some(Gain(own.0, own.1) - Blend(Gain(market.0, market.1), p.marketWeight, Gain(sector.0, sector.1), p.sectorWeight))
  {
    FrozenParts(x);
    hide RecordsBound, BarsSound, Return, PartitionOf, Gain, Traded, Blend, Benchmark, EntryOf, ExitOf;
    var from, to := EntryOf(p, x), ExitOf(x, horizon);
    var a, b := ReturnIsGain(x, x.instrument, from, to, Return(x, x.instrument, from, to, None).value);
    var c, d := ReturnIsGain(x, SPY, from, to, Return(x, SPY, from, to, None).value);
    var e, f := ReturnIsGain(x, x.sector, from, to, Return(x, x.sector, from, to, None).value);
    own, market, sector := (a, b), (c, d), (e, f);
    LabelOfReturns(p, x, horizon);
  }

  /** The minute a position is entered: the first whole one after the delay. */
  lemma EntryIsNextMinute(p: Protocol, x: Input)
    ensures EntryOf(p, x) % 60000 == 0 && x.decision + p.entryDelay <= EntryOf(p, x) < x.decision + p.entryDelay + 60000
  {
  }

  ghost predicate HasReturn(x: Input, instrument: nat, from: nat, to: nat) {
    exists first, last :: Traded(x, instrument, from, to, first, last)
  }

  lemma ReturnExactly(x: Input, instrument: nat, from: nat, to: nat)
    requires BarsSound(x.bars)
    ensures Return(x, instrument, from, to, None).Some? <==> HasReturn(x, instrument, from, to)
  {
    if Return(x, instrument, from, to, None).Some? {
      var first, last := ReturnIsGain(x, instrument, from, to, Return(x, instrument, from, to, None).value);
    }
    if first, last :| Traded(x, instrument, from, to, first, last) {
      PriceIsClose(x, instrument, from, first.close);
      PriceIsClose(x, instrument, to, last.close);
      PositiveClose(x.bars, first);
      hide Price, BarsSound;
    }
  }

  lemma PositiveClose(bars: seq<Bar>, bar: Bar)
    requires BarsSound(bars) && bar in bars
    ensures bar.close > 0.0
  {
  }

  /** A label's span lies in one window, entered before it is left. */
  predicate Spans(p: Protocol, x: Input, n: nat, exit: nat)
    requires |p.boundaries| == 4 && n < 3
  {
    && Eligible(p, x) && p.boundaries[n] <= x.initialStart && x.decision < p.boundaries[n + 1] && p.boundaries[n] <= x.decision
    && EntryOf(p, x) < exit < p.boundaries[n + 1]
  }

  /** A label is available exactly if its span lies in one window and all three instruments have both bars. */
  lemma LabelExactly(p: Protocol, x: Input, horizon: Horizon)
    requires ProtocolOk(p) && Frozen(x)
    ensures var entry, exit := EntryOf(p, x), ExitOf(x, horizon);
            LabelOf(p, x, horizon).status == Available <==>
              && (Spans(p, x, 0, exit) || Spans(p, x, 1, exit) || Spans(p, x, 2, exit))
              && HasReturn(x, x.instrument, entry, exit) && HasReturn(x, SPY, entry, exit) && HasReturn(x, x.sector, entry, exit)
    ensures var l := LabelOf(p, x, horizon);
            && l.entry == EntryOf(p, x)
            && l.exit == (match horizon case Minutes(n) => x.decision + n * 60000 case AtClose => x.closeMs case NextSession => x.nextSession)
  {
    FrozenParts(x);
    PartitionExactly(p, x, 0);
    PartitionExactly(p, x, 1);
    PartitionExactly(p, x, 2);
    var entry, exit := EntryOf(p, x), ExitOf(x, horizon);
    ReturnExactly(x, x.instrument, entry, exit);
    ReturnExactly(x, SPY, entry, exit);
    ReturnExactly(x, x.sector, entry, exit);
    hide Frozen, BarsSound, Return, PartitionOf, EntryOf, HasReturn, Eligible, Benchmark;
  }

  /** The bars a reaction is read off were known by the cutoff. */
  predicate TradedKnown(x: Input, instrument: nat, first: Bar, last: Bar) {
    && KnownBar(x, first) && first.instrument == instrument && first.endMs == x.initialStart
    && KnownBar(x, last) && last.instrument == instrument && last.endMs == x.cutoff
  }

  lemma KnownReturnIsGain(x: Input, instrument: nat, r: real) returns (first: Bar, last: Bar)
    requires BarsSound(x.bars) && Return(x, instrument, x.initialStart, x.cutoff, Some(x.cutoff)) == Some(r)
    ensures TradedKnown(x, instrument, first, last) && first.close > 0.0 && r == Gain(first, last)
  {
    var a, b := Price(x, instrument, x.initialStart, Some(x.cutoff)).value, Price(x, instrument, x.cutoff, Some(x.cutoff)).value;
    PriceKnown(x, instrument, x.initialStart, a);
    PriceKnown(x, instrument, x.cutoff, b);
    hide *;
    first :| KnownBar(x, first) && first.instrument == instrument && first.endMs == x.initialStart && first.close == a;
    last :| KnownBar(x, last) && last.instrument == instrument && last.endMs == x.cutoff && last.close == b;
    GainIs(a, b);
  }

  /** The reaction is the instrument's gain up to the cutoff, less the weighted gains of market and sector, off known bars. */
  lemma ReactionIsAbnormalGain(p: Protocol, x: Input) returns (own: (Bar, Bar), market: (Bar, Bar), sector: (Bar, Bar))
    requires BarsSound(x.bars) && InitialReaction(p, x).Some?
    ensures && TradedKnown(x, x.instrument, own.0, own.1) && TradedKnown(x, SPY, market.0, market.1) && TradedKnown(x, x.sector, sector.0, sector.1)
            && own.0.close > 0.0 && market.0.close > 0.0 && sector.0.close > 0.0
            && InitialReaction(p, x) == Some(Gain(own.0, own.1) - Blend(Gain(market.0, market.1), p.marketWeight, Gain(sector.0, sector.1), p.sectorWeight))
  {
    hide BarsSound, Return, Gain, TradedKnown, Blend, Benchmark;
    var r := ReturnsOver(x, x.initialStart, x.cutoff, Some(x.cutoff)).value;
    var a, b := KnownReturnIsGain(x, x.instrument, r.own);
    var c, d := KnownReturnIsGain(x, SPY, r.market);
    var e, f := KnownReturnIsGain(x, x.sector, r.sector);
    own, market, sector := (a, b), (c, d), (e, f);
    BenchmarkIs(p, r);
  }

  lemma LabelOfReturns(p: Protocol, x: Input, horizon: Horizon)
    requires ProtocolOk(p) && LabelOf(p, x, horizon).status == Available
    ensures var l := LabelOf(p, x, horizon);
            var own, market, sector := Return(x, x.instrument, l.entry, l.exit, None), Return(x, SPY, l.entry, l.exit, None),
              Return(x, x.sector, l.entry, l.exit, None);
            && own.Some? && market.Some? && sector.Some?
            && l.abnormal == Some(own.value - Blend(market.value, p.marketWeight, sector.value, p.sectorWeight))
  {
    hide Return, PartitionOf, EntryOf, ExitOf, Benchmark, Blend;
    var r := ReturnsOver(x, EntryOf(p, x), ExitOf(x, horizon), None);
    assert r.Some?;
    var l := LabelOf(p, x, horizon);
    assert l.abnormal == Some(r.value.own - Benchmark(p, r.value));
    assert l.entry == EntryOf(p, x) && l.exit == ExitOf(x, horizon);
    assert Return(x, x.instrument, l.entry, l.exit, None) == Some(r.value.own);
    assert Return(x, SPY, l.entry, l.exit, None) == Some(r.value.market);
    assert Return(x, x.sector, l.entry, l.exit, None) == Some(r.value.sector);
    BenchmarkIs(p, r.value);
  }

  lemma BenchmarkIs(p: Protocol, r: Returns)
    ensures Benchmark(p, r) == Blend(r.market, p.marketWeight, r.sector, p.sectorWeight)
  {
  }

  function TrialsAt(p: Protocol, x: Input, horizon: Horizon, vs: seq<Variant>): (r: seq<Trial>)
    requires ProtocolOk(p)
    ensures |r| == |vs| && forall i :: 0 <= i < |vs| ==> r[i] == TrialOf(p, x, horizon, vs[i])
  {
    seq(|vs|, i requires 0 <= i < |vs| => TrialOf(p, x, horizon, vs[i]))
  }

  function TrialsOn(p: Protocol, x: Input, hs: seq<Horizon>): seq<Trial>
    requires ProtocolOk(p)
  {
    if hs == [] then [] else TrialsOn(p, x, hs[..|hs| - 1]) + TrialsAt(p, x, hs[|hs| - 1], p.variants)
  }

  function Trials(p: Protocol, xs: seq<Input>): seq<Trial>
    requires ProtocolOk(p)
  {
    if xs == [] then [] else Trials(p, xs[..|xs| - 1]) + TrialsOn(p, xs[|xs| - 1], HORIZONS)
  }

  // ----- Signals -----

  datatype Signal = Signal(variant: nat, horizon: Horizon, partition: Partition, attempted: nat, completed: nat, failed: nat, net: seq<real>)

  predicate Selected(t: Trial, v: Variant, horizon: Horizon, part: Partition) {
    t.variant == v.id && t.partition == part && t.scored.horizon == horizon
  }

  function Select(ts: seq<Trial>, v: Variant, horizon: Horizon, part: Partition): seq<Trial> {
    if ts == [] then []
    else Select(ts[..|ts| - 1], v, horizon, part) + (if Selected(ts[|ts| - 1], v, horizon, part) then [ts[|ts| - 1]] else [])
  }

  function NetOf(ts: seq<Trial>): (r: seq<real>)
    ensures |r| <= |ts|
  {
    if ts == [] then [] else NetOf(ts[..|ts| - 1]) + (if ts[|ts| - 1].net.Some? then [ts[|ts| - 1].net.value] else [])
  }

  function SignalOf(ts: seq<Trial>, v: Variant, horizon: Horizon, part: Partition): Signal {
    var selected := Select(ts, v, horizon, part);
    var net := NetOf(selected);
    Signal(v.id, horizon, part, |selected|, |net|, |selected| - |net|, net)
  }

  function Members(p: Protocol, xs: seq<Input>, part: Partition): (r: nat)
    requires ProtocolOk(p)
    ensures r <= |xs|
  {
    if xs == [] then 0 else Members(p, xs[..|xs| - 1], part) + (if PartitionOf(p, xs[|xs| - 1]) == part then 1 else 0)
  }

  lemma {:induction false} SelectConcat(a: seq<Trial>, b: seq<Trial>, v: Variant, horizon: Horizon, part: Partition)
    ensures Select(a + b, v, horizon, part) == Select(a, v, horizon, part) + Select(b, v, horizon, part)
  {
    if b == [] {
      assert a + b == a;
    } else {
      assert (a + b)[..|a + b| - 1] == a + b[..|b| - 1];
      SelectConcat(a, b[..|b| - 1], v, horizon, part);
    }
  }

  /** Among the trials of one input and horizon, a variant has exactly one. */
  lemma {:induction false} OnePerVariant(p: Protocol, x: Input, horizon: Horizon, n: nat, i: nat, h: Horizon, part: Partition)
    requires ProtocolOk(p) && n <= |p.variants| && i < |p.variants|
    ensures Select(TrialsAt(p, x, horizon, p.variants[..n]), p.variants[i], h, part)
            == if i < n && h == horizon && PartitionOf(p, x) == part then [TrialOf(p, x, horizon, p.variants[i])] else []
  {
    hide PartitionOf, DirectionOf;
    if n > 0 {
      OnePerVariant(p, x, horizon, n - 1, i, h, part);
      var all := TrialsAt(p, x, horizon, p.variants[..n]);
      assert all[..n - 1] == TrialsAt(p, x, horizon, p.variants[..n - 1]);
      assert all[n - 1] == TrialOf(p, x, horizon, p.variants[n - 1]);
      OwnTrial(p, x, horizon, p.variants[n - 1]);
      if i != n - 1 { assert p.variants[i].id != p.variants[n - 1].id; }
    }
  }

  lemma OwnTrial(p: Protocol, x: Input, horizon: Horizon, v: Variant)
    requires ProtocolOk(p)
    ensures var t := TrialOf(p, x, horizon, v); t.variant == v.id && t.partition == PartitionOf(p, x) && t.scored.horizon == horizon
  {
    hide PartitionOf, DirectionOf, ReturnsOver;
  }

  lemma NoneSelected(v: Variant, horizon: Horizon, part: Partition)
    ensures Select([], v, horizon, part) == []
  {
  }

  /** Among the trials of one input, a variant has one for each time a horizon is listed. */
  lemma {:induction false} OnePerHorizon(p: Protocol, x: Input, n: nat, i: nat, k: nat, part: Partition)
    requires ProtocolOk(p) && n <= |HORIZONS| && i < |p.variants| && k < |HORIZONS|
    ensures Select(TrialsOn(p, x, HORIZONS[..n]), p.variants[i], HORIZONS[k], part)
            == if k < n && PartitionOf(p, x) == part then [TrialOf(p, x, HORIZONS[k], p.variants[i])] else []
  {
    hide *;
    TrialsOnStep(p, x, n);
    if n == 0 {
      NoneSelected(p.variants[i], HORIZONS[k], part);
    } else {
      OnePerHorizon(p, x, n - 1, i, k, part);
      SelectConcat(TrialsOn(p, x, HORIZONS[..n - 1]), TrialsAt(p, x, HORIZONS[n - 1], p.variants), p.variants[i], HORIZONS[k], part);
      assert p.variants[..|p.variants|] == p.variants;
      OnePerVariant(p, x, HORIZONS[n - 1], |p.variants|, i, HORIZONS[k], part);
      HorizonsDiffer(k, n - 1);
    }
  }

  lemma TrialsOnStep(p: Protocol, x: Input, n: nat)
    requires ProtocolOk(p) && n <= |HORIZONS|
    ensures TrialsOn(p, x, HORIZONS[..n]) ==
              if n == 0 then [] else TrialsOn(p, x, HORIZONS[..n - 1]) + TrialsAt(p, x, HORIZONS[n - 1], p.variants)
  {
    hide TrialsAt, ProtocolOk;
    if n > 0 { assert HORIZONS[..n][..n - 1] == HORIZONS[..n - 1]; }
  }

  lemma HorizonsDiffer(k: nat, n: nat)
    requires k < |HORIZONS| && n < |HORIZONS|
    ensures HORIZONS[k] == HORIZONS[n] <==> k == n
  {
  }

  /** What a variant earns over a horizon on the inputs of a partition, input by input where a trial completes. */
  function Earned(p: Protocol, xs: seq<Input>, v: Variant, horizon: Horizon, part: Partition): seq<real>
    requires ProtocolOk(p)
  {
    if xs == [] then []
    else
      var x := xs[|xs| - 1];
      Earned(p, xs[..|xs| - 1], v, horizon, part)
      + if PartitionOf(p, x) == part && LabelOf(p, x, horizon).status == Available && DirectionOf(p, v, x).Some?
        then [TrialOf(p, x, horizon, v).net.value] else []
  }

  lemma {:induction false} NetConcat(a: seq<Trial>, b: seq<Trial>)
    ensures NetOf(a + b) == NetOf(a) + NetOf(b)
  {
    if b == [] {
      assert a + b == a;
    } else {
      assert (a + b)[..|a + b| - 1] == a + b[..|b| - 1];
      NetConcat(a, b[..|b| - 1]);
    }
  }

  /**
    Every signal attempts each input of its partition exactly once, and reports the net returns of those trials
    that have an available label and a side, in the order of the inputs.
   */
  lemma {:induction false} AttemptsEveryInput(p: Protocol, xs: seq<Input>, i: nat, k: nat, part: Partition)
    requires ProtocolOk(p) && i < |p.variants| && k < |HORIZONS|
    ensures var s := SignalOf(Trials(p, xs), p.variants[i], HORIZONS[k], part);
            && s.attempted == Members(p, xs, part)
            && s.net == Earned(p, xs, p.variants[i], HORIZONS[k], part) && s.completed == |s.net| && s.failed == s.attempted - s.completed
  {
    hide PartitionOf, ProtocolOk, TrialsOn, LabelOf, DirectionOf, TrialOf, Select, NetOf;
    var v, h := p.variants[i], HORIZONS[k];
    if xs == [] {
      NoneSelected(v, h, part);
      assert NetOf([]) == [] by { NoneEarned(); }
    } else {
      var rest, last := xs[..|xs| - 1], xs[|xs| - 1];
      AttemptsEveryInput(p, rest, i, k, part);
      SelectConcat(Trials(p, rest), TrialsOn(p, last, HORIZONS), v, h, part);
      assert HORIZONS[..|HORIZONS|] == HORIZONS;
      OnePerHorizon(p, last, |HORIZONS|, i, k, part);
      NetConcat(Select(Trials(p, rest), v, h, part), Select(TrialsOn(p, last, HORIZONS), v, h, part));
      NetOfOne(TrialOf(p, last, h, v));
      NoneEarned();
      NetKnown(p, last, h, v);
    }
  }

  lemma NetKnown(p: Protocol, x: Input, horizon: Horizon, v: Variant)
    requires ProtocolOk(p)
    ensures TrialOf(p, x, horizon, v).net.Some? <==> LabelOf(p, x, horizon).status == Available && DirectionOf(p, v, x).Some?
  {
    hide LabelOf, DirectionOf, PartitionOf;
  }

  lemma NoneEarned()
    ensures NetOf([]) == []
  {
  }

  lemma NetOfOne(t: Trial)
    ensures NetOf([t]) == if t.net.Some? then [t.net.value] else []
  {
    assert [t][..0] == [];
  }

  // ----- The evaluation -----

  function SignalsFor(ts: seq<Trial>, v: Variant, horizon: Horizon): (r: seq<Signal>)
    ensures |r| == 4 && forall n :: 0 <= n < 4 ==> r[n] == SignalOf(ts, v, horizon, PARTITIONS[n])
  {
    [SignalOf(ts, v, horizon, PARTITIONS[0]), SignalOf(ts, v, horizon, PARTITIONS[1]), SignalOf(ts, v, horizon, PARTITIONS[2]), SignalOf(ts, v, horizon, PARTITIONS[3])]
  }

  function SignalsOver(ts: seq<Trial>, v: Variant, hs: seq<Horizon>): seq<Signal> {
    if hs == [] then [] else SignalsOver(ts, v, hs[..|hs| - 1]) + SignalsFor(ts, v, hs[|hs| - 1])
  }

  function Signals(ts: seq<Trial>, vs: seq<Variant>): seq<Signal> {
    if vs == [] then [] else Signals(ts, vs[..|vs| - 1]) + SignalsOver(ts, vs[|vs| - 1], HORIZONS)
  }

  function Attempted(ss: seq<Signal>): nat {
    if ss == [] then 0 else Attempted(ss[..|ss| - 1]) + ss[|ss| - 1].attempted
  }

  lemma {:induction false} AttemptedConcat(a: seq<Signal>, b: seq<Signal>)
    ensures Attempted(a + b) == Attempted(a) + Attempted(b)
  {
    if b == [] {
      assert a + b == a;
    } else {
      assert (a + b)[..|a + b| - 1] == a + b[..|b| - 1];
      AttemptedConcat(a, b[..|b| - 1]);
    }
  }

  /** Every input is in exactly one partition. */
  lemma {:induction false} PartitionsCover(p: Protocol, xs: seq<Input>)
    requires ProtocolOk(p)
    ensures Members(p, xs, Window(0)) + Members(p, xs, Window(1)) + Members(p, xs, Window(2)) + Members(p, xs, Excluded) == |xs|
  {
    if xs != [] {
      PartitionsCover(p, xs[..|xs| - 1]);
      assert PartitionOf(p, xs[|xs| - 1]) in PARTITIONS;
      hide PartitionOf, ProtocolOk;
    }
  }

  lemma {:induction false} CountTrials(p: Protocol, xs: seq<Input>)
    requires ProtocolOk(p)
    ensures |Trials(p, xs)| == |xs| * (|HORIZONS| * |p.variants|)
  {
    if xs != [] {
      CountTrials(p, xs[..|xs| - 1]);
      assert HORIZONS[..|HORIZONS|] == HORIZONS;
      CountTrialsOn(p, xs[|xs| - 1], |HORIZONS|);
      OneMore(|xs| - 1, |HORIZONS| * |p.variants|);
    }
  }

  lemma {:induction false} CountTrialsOn(p: Protocol, x: Input, n: nat)
    requires ProtocolOk(p) && n <= |HORIZONS|
    ensures |TrialsOn(p, x, HORIZONS[..n])| == n * |p.variants|
  {
    hide ProtocolOk, TrialsAt;
    if n > 0 {
      assert HORIZONS[..n][..n - 1] == HORIZONS[..n - 1];
      CountTrialsOn(p, x, n - 1);
      OneMore(n - 1, |p.variants|);
    }
  }

  lemma OneMore(n: nat, m: nat)
    ensures (n + 1) * m == n * m + m
  {
  }

  lemma SignalsForAttempt(p: Protocol, xs: seq<Input>, i: nat, k: nat)
    requires ProtocolOk(p) && i < |p.variants| && k < |HORIZONS|
    ensures Attempted(SignalsFor(Trials(p, xs), p.variants[i], HORIZONS[k])) == |xs|
  {
    hide Trials, SignalOf, ProtocolOk, Members;
    var ts, v, h := Trials(p, xs), p.variants[i], HORIZONS[k];
    AttemptsEveryInput(p, xs, i, k, Window(0));
    AttemptsEveryInput(p, xs, i, k, Window(1));
    AttemptsEveryInput(p, xs, i, k, Window(2));
    AttemptsEveryInput(p, xs, i, k, Excluded);
    PartitionsCover(p, xs);
    FourAttempts(SignalsFor(ts, v, h));
  }

  lemma FourAttempts(ss: seq<Signal>)
    requires |ss| == 4
    ensures Attempted(ss) == ss[0].attempted + ss[1].attempted + ss[2].attempted + ss[3].attempted
  {
    var a, b, c := ss[..3], ss[..2], ss[..1];
    assert a[..2] == b && b[..1] == c && c[..0] == [];
    assert Attempted(c) == ss[0].attempted;
    assert Attempted(b) == Attempted(c) + ss[1].attempted;
    assert Attempted(a) == Attempted(b) + ss[2].attempted;
  }

  lemma {:induction false} SignalsOverAttempt(p: Protocol, xs: seq<Input>, i: nat, n: nat)
    requires ProtocolOk(p) && i < |p.variants| && n <= |HORIZONS|
    ensures Attempted(SignalsOver(Trials(p, xs), p.variants[i], HORIZONS[..n])) == n * |xs|
  {
    hide Trials, SignalsFor, ProtocolOk, Attempted;
    if n > 0 {
      var ts, v := Trials(p, xs), p.variants[i];
      assert HORIZONS[..n][..n - 1] == HORIZONS[..n - 1];
      SignalsOverAttempt(p, xs, i, n - 1);
      SignalsForAttempt(p, xs, i, n - 1);
      AttemptedConcat(SignalsOver(ts, v, HORIZONS[..n - 1]), SignalsFor(ts, v, HORIZONS[n - 1]));
      OneMore(n - 1, |xs|);
    } else {
      NoneAttempted();
    }
  }

  lemma NoneAttempted()
    ensures Attempted([]) == 0
  {
  }

  lemma {:induction false} SignalsAttempt(p: Protocol, xs: seq<Input>, n: nat)
    requires ProtocolOk(p) && n <= |p.variants|
    ensures Attempted(Signals(Trials(p, xs), p.variants[..n])) == n * (|HORIZONS| * |xs|)
  {
    hide Trials, SignalsOver, ProtocolOk, Attempted;
    if n > 0 {
      var ts := Trials(p, xs);
      assert p.variants[..n][..n - 1] == p.variants[..n - 1];
      SignalsAttempt(p, xs, n - 1);
      assert HORIZONS[..|HORIZONS|] == HORIZONS;
      SignalsOverAttempt(p, xs, n - 1, |HORIZONS|);
      AttemptedConcat(Signals(ts, p.variants[..n - 1]), SignalsOver(ts, p.variants[n - 1], HORIZONS));
      OneMore(n - 1, |HORIZONS| * |xs|);
    } else {
      NoneAttempted();
    }
  }

  /** Nothing is dropped: the signals' attempts together are as many as the trials. */
  lemma AttemptsAreTrials(p: Protocol, xs: seq<Input>)
    requires ProtocolOk(p)
    ensures Attempted(Signals(Trials(p, xs), p.variants)) == |Trials(p, xs)|
  {
    hide Trials, Signals, Attempted, ProtocolOk;
    assert p.variants[..|p.variants|] == p.variants;
    SignalsAttempt(p, xs, |p.variants|);
    CountTrials(p, xs);
    Reordered(|p.variants|, |HORIZONS|, |xs|);
  }

  lemma Reordered(a: nat, b: nat, c: nat)
    ensures a * (b * c) == c * (b * a)
  {
    assert a * (b * c) == (a * b) * c;
    assert c * (b * a) == (b * a) * c;
  }

  /** `evaluateManifest`: every variant on every horizon of every input, then a signal for each of the cells. */
  method EvaluateManifest(p: Protocol, inputs: seq<Input>) returns (trials: seq<Trial>, signals: seq<Signal>)
    requires ProtocolOk(p)
    ensures trials == Trials(p, inputs) && signals == Signals(trials, p.variants)
    ensures Attempted(signals) == |trials|
  {
    hide TrialsOn, Attempted, ProtocolOk, Signals, SignalOf;
    trials := [];
    for i := 0 to |inputs|
      invariant trials == Trials(p, inputs[..i])
    {
      assert inputs[..i + 1][..i] == inputs[..i];
      var more := EvaluateInput(p, inputs[i]);
      trials := trials + more;
    }
    assert inputs[..|inputs|] == inputs;
    signals := SummariseTrials(trials, p.variants);
    AttemptsAreTrials(p, inputs);
  }

  method EvaluateInput(p: Protocol, x: Input) returns (trials: seq<Trial>)
    requires ProtocolOk(p)
    ensures trials == TrialsOn(p, x, HORIZONS)
  {
    hide TrialOf, ProtocolOk;
    trials := [];
    for k := 0 to |HORIZONS|
      invariant trials == TrialsOn(p, x, HORIZONS[..k])
    {
      assert HORIZONS[..k + 1][..k] == HORIZONS[..k];
      var before := trials;
      for j := 0 to |p.variants|
        invariant trials == before + TrialsAt(p, x, HORIZONS[k], p.variants)[..j]
      {
        trials := trials + [TrialOf(p, x, HORIZONS[k], p.variants[j])];
      }
    }
    assert HORIZONS[..|HORIZONS|] == HORIZONS;
  }

  method SummariseTrials(trials: seq<Trial>, variants: seq<Variant>) returns (signals: seq<Signal>)
    ensures signals == Signals(trials, variants)
  {
    hide SignalOf, SignalsOver;
    signals := [];
    for i := 0 to |variants|
      invariant signals == Signals(trials, variants[..i])
    {
      assert variants[..i + 1][..i] == variants[..i];
      var more := SummariseVariant(trials, variants[i]);
      signals := signals + more;
    }
    assert variants[..|variants|] == variants;
  }

  method SummariseVariant(trials: seq<Trial>, v: Variant) returns (signals: seq<Signal>)
    ensures signals == SignalsOver(trials, v, HORIZONS)
  {
    hide SignalOf;
    signals := [];
    for k := 0 to |HORIZONS|
      invariant signals == SignalsOver(trials, v, HORIZONS[..k])
    {
      assert HORIZONS[..k + 1][..k] == HORIZONS[..k];
      var before := signals;
      for n := 0 to |PARTITIONS|
        invariant signals == before + SignalsFor(trials, v, HORIZONS[k])[..n]
      {
        signals := signals + [SignalOf(trials, v, HORIZONS[k], PARTITIONS[n])];
      }
    }
    assert HORIZONS[..|HORIZONS|] == HORIZONS;
  }
}
