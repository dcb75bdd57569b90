/**
  The reconciliation loop of the vault over an otherwise unchanged disk and database: a durable head
  (phase, shard, key, pending action) that every iteration either plans at or moves strictly forward, so
  that each row and each file is handled once however the run is cut into calls.

  Keys are numbers in their order, `-1` standing for the empty key. Directory listings are sorted.
 */
module Reconciliation {
  import opened Base

  const SHARDS: nat := 65536

  // ----- Content: two levels of shard directories -----

  datatype Second = Second(value: nat, names: seq<nat>)

  datatype First = First(value: nat, seconds: seq<Second>)

  /** A leaf directory and the names in it. */
  datatype Shard = Shard(number: nat, names: seq<nat>)

  predicate SecondsSorted(ss: seq<Second>) {
    && (forall i :: 0 <= i < |ss| ==> ss[i].value < 256 && StrictlyAscending(ss[i].names))
    && (forall i, j :: 0 <= i < j < |ss| ==> ss[i].value < ss[j].value)
  }

  predicate TreeSorted(fs: seq<First>) {
    && (forall i :: 0 <= i < |fs| ==> fs[i].value < 256 && SecondsSorted(fs[i].seconds))
    && (forall i, j :: 0 <= i < j < |fs| ==> fs[i].value < fs[j].value)
  }

  function FindFirst(fs: seq<First>, minimum: nat): Option<First> {
    if fs == [] then None else if fs[0].value >= minimum then Some(fs[0]) else FindFirst(fs[1..], minimum)
  }

  function FindSecond(ss: seq<Second>, minimum: nat): Option<Second> {
    if ss == [] then None else if ss[0].value >= minimum then Some(ss[0]) else FindSecond(ss[1..], minimum)
  }

  datatype Leaf = NoLeaf | EmptyFirst(shard: nat) | LeafAt(leaf: Shard)

  /** `#nextContentLeaf`: the next directory to look at, at or after a shard. */
  function NextContentLeaf(fs: seq<First>, start: nat): Leaf {
    var minimumFirst := start / 256;
    var first := FindFirst(fs, minimumFirst);
    if first.None? then NoLeaf
    else
      var minimumSecond := if first.value.value == minimumFirst then start % 256 else 0;
      var second := FindSecond(first.value.seconds, minimumSecond);
      if second.None? then EmptyFirst((first.value.value + 1) * 256)
      else LeafAt(Shard(first.value.value * 256 + second.value.value, second.value.names))
  }

  // ----- The leaves there are -----

  function LeavesOf(first: nat, ss: seq<Second>): (r: seq<Shard>)
    ensures |r| == |ss| && forall i :: 0 <= i < |r| ==> r[i] == Shard(first * 256 + ss[i].value, ss[i].names)
  {
    if ss == [] then [] else [Shard(first * 256 + ss[0].value, ss[0].names)] + LeavesOf(first, ss[1..])
  }

  function Leaves(fs: seq<First>): seq<Shard> {
    if fs == [] then [] else LeavesOf(fs[0].value, fs[0].seconds) + Leaves(fs[1..])
  }

  predicate LeavesSorted(ls: seq<Shard>) {
    && (forall i :: 0 <= i < |ls| ==> ls[i].number < SHARDS && StrictlyAscending(ls[i].names))
    && (forall i, j :: 0 <= i < j < |ls| ==> ls[i].number < ls[j].number)
  }

  /** No leaf lies in a range of shards. */
  predicate Gap(ls: seq<Shard>, from: nat, to: nat) {
    forall i :: 0 <= i < |ls| ==> ls[i].number < from || to <= ls[i].number
  }

  lemma TreeTail(fs: seq<First>)
    requires TreeSorted(fs) && fs != []
    ensures TreeSorted(fs[1..]) && forall i :: 0 <= i < |fs| - 1 ==> fs[0].value < fs[1..][i].value
  {
    hide SecondsSorted;
    forall i, j | 0 <= i < j < |fs| - 1 ensures fs[1..][i].value < fs[1..][j].value {
      assert fs[i + 1].value < fs[j + 1].value;
    }
  }

  lemma FirstLeaves(first: nat, ss: seq<Second>)
    requires first < 256 && SecondsSorted(ss)
    ensures LeavesSorted(LeavesOf(first, ss))
    ensures forall k :: 0 <= k < |ss| ==> first * 256 <= LeavesOf(first, ss)[k].number < (first + 1) * 256
  {
    hide LeavesOf, StrictlyAscending;
    var ls := LeavesOf(first, ss);
    assert first <= 255;
  }

  lemma LeavesJoin(a: seq<Shard>, b: seq<Shard>, first: nat)
    requires LeavesSorted(a) && LeavesSorted(b)
    requires forall k :: 0 <= k < |a| ==> a[k].number < (first + 1) * 256
    requires forall k :: 0 <= k < |b| ==> b[k].number >= (first + 1) * 256
    ensures LeavesSorted(a + b)
  {
    hide StrictlyAscending;
  }

  lemma {:induction false} LeavesAre(fs: seq<First>)
    requires TreeSorted(fs)
    ensures LeavesSorted(Leaves(fs))
    ensures forall k :: 0 <= k < |Leaves(fs)| ==> fs != [] && Leaves(fs)[k].number >= fs[0].value * 256
  {
    if fs != [] {
      TreeTail(fs);
      LeavesAre(fs[1..]);
      var rest := Leaves(fs[1..]);
      forall k | 0 <= k < |rest| ensures rest[k].number >= (fs[0].value + 1) * 256 {
        assert fs[0].value < fs[1..][0].value;
      }
      FirstLeaves(fs[0].value, fs[0].seconds);
      LeavesJoin(LeavesOf(fs[0].value, fs[0].seconds), rest, fs[0].value);
      hide TreeSorted, LeavesOf, LeavesSorted;
    }
  }

  lemma {:induction false} FirstFound(fs: seq<First>, minimum: nat) returns (n: nat)
    requires TreeSorted(fs)
    ensures n <= |fs|
    ensures FindFirst(fs, minimum) == (if n == |fs| then None else Some(fs[n]))
    ensures forall i :: 0 <= i < n ==> fs[i].value < minimum
    ensures n < |fs| ==> fs[n].value >= minimum
  {
    if fs == [] || fs[0].value >= minimum {
      n := 0;
    } else {
      TreeTail(fs);
      var m := FirstFound(fs[1..], minimum);
      n := m + 1;
      assert forall i :: 0 < i < |fs| ==> fs[i] == fs[1..][i - 1];
    }
  }

  lemma {:induction false} SecondFound(ss: seq<Second>, minimum: nat) returns (n: nat)
    ensures n <= |ss|
    ensures FindSecond(ss, minimum) == (if n == |ss| then None else Some(ss[n]))
    ensures forall i :: 0 <= i < n ==> ss[i].value < minimum
    ensures n < |ss| ==> ss[n].value >= minimum
  {
    if ss == [] || ss[0].value >= minimum {
      n := 0;
    } else {
      var m := SecondFound(ss[1..], minimum);
      n := m + 1;
      assert forall i :: 0 < i < |ss| ==> ss[i] == ss[1..][i - 1];
    }
  }

  /** A leaf of the tree is a second-level directory of one of its first-level ones. */
  lemma {:induction false} LeafOrigin(fs: seq<First>, k: nat) returns (i: nat, j: nat)
    requires k < |Leaves(fs)|
    ensures i < |fs| && j < |fs[i].seconds|
    ensures Leaves(fs)[k] == Shard(fs[i].value * 256 + fs[i].seconds[j].value, fs[i].seconds[j].names)
  {
    var head := LeavesOf(fs[0].value, fs[0].seconds);
    if k < |head| {
      i, j := 0, k;
    } else {
      var a, b := LeafOrigin(fs[1..], k - |head|);
      i, j := a + 1, b;
    }
  }

  lemma {:induction false} LeafExists(fs: seq<First>, i: nat, j: nat) returns (k: nat)
    requires i < |fs| && j < |fs[i].seconds|
    ensures k < |Leaves(fs)| && Leaves(fs)[k] == Shard(fs[i].value * 256 + fs[i].seconds[j].value, fs[i].seconds[j].names)
  {
    var head := LeavesOf(fs[0].value, fs[0].seconds);
    if i == 0 {
      k := j;
    } else {
      var m := LeafExists(fs[1..], i - 1, j);
      k := |head| + m;
    }
  }

  lemma ShardParts(first: nat, second: nat, start: nat)
    requires second < 256
    ensures first * 256 + second < start <==> first < start / 256 || (first == start / 256 && second < start % 256)
  {
  }

  /** The next leaf is the first one there is from the start on, and no existing shard is jumped over. */
  lemma NextLeafExact(fs: seq<First>, start: nat)
    requires TreeSorted(fs)
    ensures match NextContentLeaf(fs, start)
            case NoLeaf => Gap(Leaves(fs), start, SHARDS)
            case EmptyFirst(shard) => start < shard <= SHARDS && Gap(Leaves(fs), start, shard)
            case LeafAt(leaf) =>
              start <= leaf.number && Gap(Leaves(fs), start, leaf.number)
              && exists k :: 0 <= k < |Leaves(fs)| && Leaves(fs)[k] == leaf
  {
    var ls := Leaves(fs);
    LeavesAre(fs);
    var n := FirstFound(fs, start / 256);
    var next := NextContentLeaf(fs, start);
    if n == |fs| {
      forall k | 0 <= k < |ls| ensures ls[k].number < start || SHARDS <= ls[k].number {
        var i, j := LeafOrigin(fs, k);
        ShardParts(fs[i].value, fs[i].seconds[j].value, start);
      }
    } else {
      var first := fs[n];
      var minimum := if first.value == start / 256 then start % 256 else 0;
      var m := SecondFound(first.seconds, minimum);
      var bound := if m == |first.seconds| then (first.value + 1) * 256 else first.value * 256 + first.seconds[m].value;
      forall k | 0 <= k < |ls| ensures ls[k].number < start || bound <= ls[k].number {
        var i, j := LeafOrigin(fs, k);
        LeafBefore(fs, start, n, m, i, j);
      }
      if m < |first.seconds| {
        ShardParts(first.value, first.seconds[m].value, start);
        var k := LeafExists(fs, n, m);
      } else {
        ShardParts(first.value, 255, start);
      }
    }
  }

  /** Where a leaf stands relative to what the two searches found. */
  lemma LeafBefore(fs: seq<First>, start: nat, n: nat, m: nat, i: nat, j: nat)
    requires TreeSorted(fs) && n < |fs| && i < |fs| && j < |fs[i].seconds| && m <= |fs[n].seconds|
    requires (forall x :: 0 <= x < n ==> fs[x].value < start / 256) && fs[n].value >= start / 256
    requires var minimum := if fs[n].value == start / 256 then start % 256 else 0;
             forall x :: 0 <= x < m ==> fs[n].seconds[x].value < minimum
    ensures var number := fs[i].value * 256 + fs[i].seconds[j].value;
            var bound := if m == |fs[n].seconds| then (fs[n].value + 1) * 256 else fs[n].value * 256 + fs[n].seconds[m].value;
            number < start || bound <= number
  {
    assert SecondsSorted(fs[i].seconds) && SecondsSorted(fs[n].seconds);
    ShardParts(fs[i].value, fs[i].seconds[j].value, start);
    if i > n { assert fs[n].value < fs[i].value; }
    if i == n && j > m { assert fs[n].seconds[m].value < fs[n].seconds[j].value; }
    hide TreeSorted, SecondsSorted;
  }

  // ----- The files still to be handled from a position -----

  type File = (nat, nat)

  function NamesAfter(shard: nat, names: seq<nat>, after: int): seq<File> {
    if names == [] then [] else (if after < names[0] then [(shard, names[0])] else []) + NamesAfter(shard, names[1..], after)
  }

  /** All content files from a shard on, past a key in that shard, in order. */
  function FilesFrom(ls: seq<Shard>, shard: nat, after: int): seq<File> {
    if ls == [] then []
    else
      (if ls[0].number < shard then []
       else NamesAfter(ls[0].number, ls[0].names, if ls[0].number == shard then after else -1))
      + FilesFrom(ls[1..], shard, after)
  }

  lemma LeavesTail(ls: seq<Shard>)
    requires LeavesSorted(ls) && ls != []
    ensures LeavesSorted(ls[1..]) && forall i :: 0 <= i < |ls| - 1 ==> ls[1..][i] == ls[i + 1]
  {
    hide StrictlyAscending;
    forall i, j | 0 <= i < j < |ls| - 1 ensures ls[1..][i].number < ls[1..][j].number {
      assert ls[i + 1].number < ls[j + 1].number;
    }
  }

  /** Moving over a gap leaves the same files to handle. */
  lemma {:induction false} OverGap(ls: seq<Shard>, from: nat, after: int, to: nat)
    requires LeavesSorted(ls) && from < to && Gap(ls, from, to)
    ensures FilesFrom(ls, from, after) == FilesFrom(ls, to, -1)
  {
    if ls != [] {
      LeavesTail(ls);
      OverGap(ls[1..], from, after, to);
    }
  }

  lemma {:induction false} NothingLeft(ls: seq<Shard>, from: nat, after: int)
    requires LeavesSorted(ls) && Gap(ls, from, SHARDS)
    ensures FilesFrom(ls, from, after) == []
  {
    if ls != [] {
      LeavesTail(ls);
      NothingLeft(ls[1..], from, after);
    }
  }

  lemma LeavesAbove(ls: seq<Shard>, k: nat)
    requires LeavesSorted(ls) && k < |ls|
    ensures forall i :: 0 <= i < |ls| - 1 ==> ls[1..][i].number > ls[0].number
    ensures k > 0 ==> ls[k].number > ls[0].number && ls[1..][k - 1] == ls[k]
  {
    hide StrictlyAscending;
  }

  lemma FirstOf(ls: seq<Shard>, shard: nat, after: int)
    requires ls != []
    ensures FilesFrom(ls, shard, after)
              == (if ls[0].number < shard then []
                  else NamesAfter(ls[0].number, ls[0].names, if ls[0].number == shard then after else -1)) + FilesFrom(ls[1..], shard, after)
  {
    hide NamesAfter;
  }

  /** At an existing leaf: its names past the key, then everything after it. */
  lemma {:induction false} AtLeaf(ls: seq<Shard>, k: nat, after: int)
    requires LeavesSorted(ls) && k < |ls|
    ensures FilesFrom(ls, ls[k].number, after)
              == NamesAfter(ls[k].number, ls[k].names, after) + FilesFrom(ls, ls[k].number + 1, -1)
  {
    hide *;
    LeavesTail(ls);
    LeavesAbove(ls, k);
    FirstOf(ls, ls[k].number, after);
    FirstOf(ls, ls[k].number + 1, -1);
    if k > 0 { AtLeaf(ls[1..], k - 1, after); } else { Above(ls[1..], ls[0].number, after, ls[0].number + 1, -1); }
  }

  /** Leaves above a shard are complete, whatever the key in it. */
  lemma {:induction false} Above(ls: seq<Shard>, shard: nat, after: int, next: nat, key: int)
    requires LeavesSorted(ls) && next == shard + 1 && key == -1 && forall i :: 0 <= i < |ls| ==> ls[i].number > shard
    ensures FilesFrom(ls, shard, after) == FilesFrom(ls, next, key)
  {
    hide NamesAfter;
    if ls != [] {
      LeavesTail(ls);
      Above(ls[1..], shard, after, next, key);
    }
  }

  /** `names.find((candidate) => candidate > afterKey)`. */
  function NextName(names: seq<nat>, after: int): Option<nat> {
    if names == [] then None else if after < names[0] then Some(names[0]) else NextName(names[1..], after)
  }

  lemma HeadName(shard: nat, names: seq<nat>, after: int)
    requires StrictlyAscending(names)
    ensures names == [] ==> NamesAfter(shard, names, after) == [] && NextName(names, after) == None
    ensures names != [] ==>
              && StrictlyAscending(names[1..]) && (forall x :: x in names[1..] ==> names[0] < x)
              && NamesAfter(shard, names, after) == (if after < names[0] then [(shard, names[0])] else []) + NamesAfter(shard, names[1..], after)
              && NextName(names, after) == (if after < names[0] then Some(names[0]) else NextName(names[1..], after))
  {
    if names != [] { AscendingTail(names); }
    hide StrictlyAscending;
  }

  lemma {:induction false} NextNameExact(shard: nat, names: seq<nat>, after: int)
    requires StrictlyAscending(names)
    ensures NextName(names, after).None? ==> NamesAfter(shard, names, after) == []
    ensures NextName(names, after).Some? ==>
              var n := NextName(names, after).value;
              after < n && NamesAfter(shard, names, after) == [(shard, n)] + NamesAfter(shard, names, n)
  {
    hide *;
    HeadName(shard, names, after);
    if names != [] {
      if after < names[0] {
        AllAfter(shard, names[1..], after, names[0]);
        HeadName(shard, names, names[0]);
      } else {
        NextNameExact(shard, names[1..], after);
        if NextName(names, after).Some? { HeadName(shard, names, NextName(names, after).value); }
      }
    }
  }

  lemma {:induction false} AllAfter(shard: nat, names: seq<nat>, a: int, b: int)
    requires forall x :: x in names ==> a < x && b < x
    ensures NamesAfter(shard, names, a) == NamesAfter(shard, names, b)
  {
    if names != [] {
      assert names == [names[0]] + names[1..] && names[0] in names;
      assert forall x :: x in names[1..] ==> x in names;
      AllAfter(shard, names[1..], a, b);
    }
  }

  // ----- The phases -----

  const EVIDENCE_PHASES: nat := 5
  const CONTENT: nat := 9
  const TERMINAL: nat := 11

  /**
    What the phases read, each a sorted list of keys: attempts, outcomes, blobs, observations, incidents,
    install intents, snapshots, staging files, open attempts and, at index ten, blobs once more. Index nine
    is unused: the content phase walks the tree.
   */
  datatype Disk = Disk(tables: seq<seq<nat>>, tree: seq<First>)

  predicate DiskSorted(disk: Disk) {
    && |disk.tables| == TERMINAL && TreeSorted(disk.tree)
    && forall i :: 0 <= i < TERMINAL ==> StrictlyAscending(disk.tables[i])
  }

  datatype Item = Row(phase: nat, key: nat) | ContentFile(shard: nat, name: nat)

  datatype Head = Head(phase: nat, shard: nat, after: int, pending: bool)

  const START := Head(0, 0, -1, false)

  function KeysAfter(phase: nat, keys: seq<nat>, after: int): (r: seq<Item>)
    ensures forall i :: 0 <= i < |r| ==> r[i].Row? && after < r[i].key
  {
    if keys == [] then [] else (if after < keys[0] then [Row(phase, keys[0])] else []) + KeysAfter(phase, keys[1..], after)
  }

  function AsItems(files: seq<File>): (r: seq<Item>)
    ensures |r| == |files|
  {
    if files == [] then [] else [ContentFile(files[0].0, files[0].1)] + AsItems(files[1..])
  }

  /** What a phase still has to handle from a position in it. */
  function PhaseItems(disk: Disk, phase: nat, shard: nat, after: int): seq<Item>
    requires phase < TERMINAL == |disk.tables|
  {
    if phase == CONTENT then AsItems(FilesFrom(Leaves(disk.tree), shard, after)) else KeysAfter(phase, disk.tables[phase], after)
  }

  /** What the phases from this one on have to handle. */
  function FromPhase(disk: Disk, phase: nat): seq<Item>
    requires |disk.tables| == TERMINAL
    decreases TERMINAL - phase
  {
    if phase >= TERMINAL then [] else PhaseItems(disk, phase, 0, -1) + FromPhase(disk, phase + 1)
  }

  /** What is still to be handled from a head on. */
  function Remaining(disk: Disk, h: Head): seq<Item>
    requires |disk.tables| == TERMINAL
  {
    if h.phase >= TERMINAL then [] else PhaseItems(disk, h.phase, h.shard, h.after) + FromPhase(disk, h.phase + 1)
  }

  function NextPhase(h: Head): Head {
    Head(h.phase + 1, 0, -1, false)
  }

  // ----- One iteration -----

  datatype Step = Step(head: Head, handled: seq<Item>, counted: nat)

  function Take(items: seq<Item>, limit: nat): (r: seq<Item>)
    ensures r <= items && |r| <= limit && (|r| < limit ==> r == items)
  {
    if |items| <= limit then items else items[..limit]
  }

  /** A page of evidence rows; a short page ends the phase. */
  function EvidenceStep(disk: Disk, h: Head, limit: nat): Step
    requires h.phase < EVIDENCE_PHASES && |disk.tables| == TERMINAL
  {
    var page := Take(KeysAfter(h.phase, disk.tables[h.phase], h.after), limit);
    var counted := if page == [] then 1 else |page|;
    if |page| < limit || page == [] then Step(NextPhase(h), page, counted)
    else Step(h.(after := page[|page| - 1].key), page, counted)
  }

  /** At an item: plan an action for it first if it needs one, otherwise handle it and move past its key. */
  function ItemStep(h: Head, item: Item, key: nat, plans: Item -> bool): Step {
    if !h.pending && plans(item) then Step(h.(pending := true), [], 0)
    else Step(h.(after := key, pending := false), [item], 1)
  }

  function KeyedStep(disk: Disk, h: Head, plans: Item -> bool): Step
    requires h.phase < TERMINAL == |disk.tables|
  {
    var next := NextName(disk.tables[h.phase], h.after);
    if next.None? then Step(NextPhase(h), [], 1) else ItemStep(h, Row(h.phase, next.value), next.value, plans)
  }

  function InLeafStep(h: Head, leaf: Shard, plans: Item -> bool): Step {
    var name := NextName(leaf.names, h.after);
    if name.None? then Step(Head(h.phase, h.shard + 1, -1, false), [], 1)
    else ItemStep(h, ContentFile(h.shard, name.value), name.value, plans)
  }

  function ContentStep(disk: Disk, h: Head, plans: Item -> bool): Step {
    match NextContentLeaf(disk.tree, h.shard)
    case NoLeaf => Step(NextPhase(h), [], 1)
    case EmptyFirst(shard) => Step(Head(h.phase, shard, -1, false), [], 1)
    case LeafAt(leaf) =>
      if leaf.number != h.shard then Step(Head(h.phase, leaf.number, -1, false), [], 1) else InLeafStep(h, leaf, plans)
  }

  function Iterate(disk: Disk, h: Head, limit: nat, plans: Item -> bool): Step
    requires h.phase < TERMINAL == |disk.tables|
  {
    if h.phase < EVIDENCE_PHASES then EvidenceStep(disk, h, limit)
    else if h.phase == CONTENT then ContentStep(disk, h, plans)
    else KeyedStep(disk, h, plans)
  }

  /** The head moves strictly forward, or stays and gains a plan. */
  predicate Forward(h: Head, next: Head) {
    || h.phase < next.phase
    || (h.phase == next.phase && h.shard < next.shard)
    || (h.phase == next.phase && h.shard == next.shard && h.after < next.after)
    || (next == h.(pending := true) && !h.pending)
  }

  predicate HeadOk(h: Head) {
    h.phase <= TERMINAL && h.shard <= SHARDS
  }

  /** What an iteration owes. */
  predicate Iterated(disk: Disk, h: Head, s: Step)
    requires |disk.tables| == TERMINAL
  {
    && HeadOk(s.head) && Forward(h, s.head)
    && Remaining(disk, h) == s.handled + Remaining(disk, s.head)
    && (s.counted == 0 <==> s.head == h.(pending := true) && !h.pending)
    && (s.head.phase == h.phase && s.head.shard == h.shard && s.counted > 0 ==> s.handled != [])
  }

  /** What makes the loops end: a later phase, a later shard, less to handle, or a plan in place. */
  predicate Nearer(disk: Disk, h: Head, next: Head)
    requires |disk.tables| == TERMINAL
  {
    || h.phase < next.phase
    || (h.phase == next.phase && h.shard < next.shard)
    || (h.phase == next.phase && h.shard == next.shard && |Remaining(disk, next)| < |Remaining(disk, h)|)
    || (h.phase == next.phase && h.shard == next.shard && |Remaining(disk, next)| == |Remaining(disk, h)| && next.pending && !h.pending)
  }

  lemma NearerOn(disk: Disk, a: Head, b: Head, c: Head)
    requires |disk.tables| == TERMINAL && Nearer(disk, a, b) && Nearer(disk, b, c)
    ensures Nearer(disk, a, c)
  {
    hide Remaining;
  }

  lemma NearerEnd(disk: Disk, h: Head, next: Head)
    requires |disk.tables| == TERMINAL && Nearer(disk, h, next)
    ensures h.phase <= next.phase
    ensures h.phase == next.phase ==> h.shard <= next.shard
    ensures h.phase == next.phase && h.shard == next.shard ==>
              |Remaining(disk, next)| < |Remaining(disk, h)|
              || (|Remaining(disk, next)| == |Remaining(disk, h)| && next.pending && !h.pending)
  {
    hide Remaining;
  }

  lemma ForwardOn(a: Head, b: Head, c: Head)
    requires Forward(a, b) && Forward(b, c)
    ensures Forward(a, c)
  {
  }

  /** What the loop's measure needs of an iteration. */
  lemma IteratedDecreases(disk: Disk, h: Head, s: Step)
    requires |disk.tables| == TERMINAL && Iterated(disk, h, s)
    ensures HeadOk(s.head) && Remaining(disk, h) == s.handled + Remaining(disk, s.head) && Forward(h, s.head)
    ensures Nearer(disk, h, s.head)
  {
    hide PhaseItems, FromPhase;
  }

  lemma HeadKey(phase: nat, keys: seq<nat>, after: int)
    requires StrictlyAscending(keys)
    ensures keys == [] ==> KeysAfter(phase, keys, after) == []
    ensures keys != [] ==>
              && StrictlyAscending(keys[1..]) && (forall x :: x in keys[1..] ==> keys[0] < x)
              && KeysAfter(phase, keys, after) == (if after < keys[0] then [Row(phase, keys[0])] else []) + KeysAfter(phase, keys[1..], after)
  {
    if keys != [] { AscendingTail(keys); }
    hide StrictlyAscending;
  }

  lemma {:induction false} KeysAfterLast(phase: nat, keys: seq<nat>, after: int, n: nat)
    requires StrictlyAscending(keys) && 0 < n <= |KeysAfter(phase, keys, after)|
    ensures var all := KeysAfter(phase, keys, after);
            KeysAfter(phase, keys, all[n - 1].key) == all[n..]
  {
    hide *;
    HeadKey(phase, keys, after);
    var all := KeysAfter(phase, keys, after);
    if after < keys[0] {
      KeysPast(phase, keys[1..], after, keys[0]);
      var rest := KeysAfter(phase, keys[1..], keys[0]);
      if n == 1 {
        HeadKey(phase, keys, keys[0]);
        assert all[1..] == rest;
      } else {
        KeysAfterLast(phase, keys[1..], keys[0], n - 1);
        assert all[n - 1] == rest[n - 2] && all[n..] == rest[n - 1..];
        HeadKey(phase, keys, rest[n - 2].key);
      }
    } else {
      KeysAfterLast(phase, keys[1..], after, n);
      HeadKey(phase, keys, all[n - 1].key);
    }
  }

  /** Keys above both bounds do not see the difference. */
  lemma {:induction false} KeysPast(phase: nat, keys: seq<nat>, a: int, b: int)
    requires forall x :: x in keys ==> a < x && b < x
    ensures KeysAfter(phase, keys, a) == KeysAfter(phase, keys, b)
  {
    if keys != [] {
      assert keys == [keys[0]] + keys[1..] && keys[0] in keys;
      assert forall x :: x in keys[1..] ==> x in keys;
      KeysPast(phase, keys[1..], a, b);
    }
  }

  lemma {:induction false} NextKey(phase: nat, keys: seq<nat>, after: int)
    requires StrictlyAscending(keys)
    ensures NextName(keys, after).None? ==> KeysAfter(phase, keys, after) == []
    ensures NextName(keys, after).Some? ==>
              var n := NextName(keys, after).value;
              after < n && KeysAfter(phase, keys, after) == [Row(phase, n)] + KeysAfter(phase, keys, n)
  {
    if keys != [] {
      AscendingTail(keys);
      NextKey(phase, keys[1..], after);
      if after < keys[0] { KeysPast(phase, keys[1..], after, keys[0]); }
    }
  }

  lemma ToNextPhase(disk: Disk, h: Head)
    requires |disk.tables| == TERMINAL && h.phase < TERMINAL
    ensures Remaining(disk, NextPhase(h)) == FromPhase(disk, h.phase + 1)
  {
    hide PhaseItems;
  }

  /** A step that ends the phase with all it had. */
  lemma PhaseEnds(disk: Disk, h: Head, handled: seq<Item>, counted: nat)
    requires |disk.tables| == TERMINAL && HeadOk(h) && h.phase < TERMINAL && counted > 0
    requires PhaseItems(disk, h.phase, h.shard, h.after) == handled
    ensures Iterated(disk, h, Step(NextPhase(h), handled, counted))
  {
    ToNextPhase(disk, h);
    hide PhaseItems, FromPhase;
  }

  /** A step within the phase. */
  lemma PhaseGoesOn(disk: Disk, h: Head, shard: nat, after: int, handled: seq<Item>, counted: nat)
    requires |disk.tables| == TERMINAL && HeadOk(h) && h.phase < TERMINAL && counted > 0 && h.shard <= shard <= SHARDS
    requires PhaseItems(disk, h.phase, h.shard, h.after) == handled + PhaseItems(disk, h.phase, shard, after)
    requires h.shard == shard ==> h.after < after && handled != []
    ensures Iterated(disk, h, Step(Head(h.phase, shard, after, false), handled, counted))
  {
    hide PhaseItems, FromPhase;
  }

  lemma PhasePlans(disk: Disk, h: Head)
    requires |disk.tables| == TERMINAL && HeadOk(h) && h.phase < TERMINAL && !h.pending
    ensures Iterated(disk, h, Step(h.(pending := true), [], 0))
  {
    hide PhaseItems, FromPhase;
  }

  lemma EvidenceIterated(disk: Disk, h: Head, limit: nat)
    requires DiskSorted(disk) && HeadOk(h) && h.phase < EVIDENCE_PHASES && limit > 0 && h.shard == 0 && !h.pending
    ensures Iterated(disk, h, EvidenceStep(disk, h, limit))
  {
    hide KeysAfter, FromPhase, Iterated;
    var all := KeysAfter(h.phase, disk.tables[h.phase], h.after);
    var page := Take(all, limit);
    var counted := if page == [] then 1 else |page|;
    if |page| < limit {
      PhaseEnds(disk, h, page, counted);
    } else {
      KeysAfterLast(h.phase, disk.tables[h.phase], h.after, |page|);
      assert all == page + all[|page|..];
      PhaseGoesOn(disk, h, 0, page[|page| - 1].key, page, counted);
    }
  }

  lemma KeyedIterated(disk: Disk, h: Head, plans: Item -> bool)
    requires DiskSorted(disk) && HeadOk(h) && EVIDENCE_PHASES <= h.phase < TERMINAL && h.phase != CONTENT && h.shard == 0
    ensures Iterated(disk, h, KeyedStep(disk, h, plans))
  {
    NextKey(h.phase, disk.tables[h.phase], h.after);
    hide KeysAfter, NextName, FromPhase, Iterated;
    var next := NextName(disk.tables[h.phase], h.after);
    if next.None? {
      PhaseEnds(disk, h, [], 1);
    } else if !h.pending && plans(Row(h.phase, next.value)) {
      PhasePlans(disk, h);
    } else {
      PhaseGoesOn(disk, h, 0, next.value, [Row(h.phase, next.value)], 1);
    }
  }

  lemma {:induction false} AsItemsConcat(a: seq<File>, b: seq<File>)
    ensures AsItems(a + b) == AsItems(a) + AsItems(b)
  {
    if a == [] { assert a + b == b; } else { assert (a + b)[1..] == a[1..] + b; AsItemsConcat(a[1..], b); }
  }

  lemma ContentItems(disk: Disk, shard: nat, after: int)
    requires |disk.tables| == TERMINAL
    ensures PhaseItems(disk, CONTENT, shard, after) == AsItems(FilesFrom(Leaves(disk.tree), shard, after))
  {
    hide AsItems, FilesFrom, Leaves;
  }

  /** The cases of a step in the content phase. */
  lemma ContentCases(disk: Disk, h: Head, plans: Item -> bool)
    requires DiskSorted(disk) && h.phase == CONTENT
    ensures |disk.tables| == TERMINAL && TreeSorted(disk.tree) && h.phase < TERMINAL
    ensures ContentStep(disk, h, plans) ==
            match NextContentLeaf(disk.tree, h.shard)
            case NoLeaf => Step(NextPhase(h), [], 1)
            case EmptyFirst(shard) => Step(Head(h.phase, shard, -1, false), [], 1)
            case LeafAt(leaf) => if leaf.number != h.shard then Step(Head(h.phase, leaf.number, -1, false), [], 1) else InLeafStep(h, leaf, plans)
  {
    hide NextContentLeaf, TreeSorted, Leaves, NextName;
  }

  lemma ContentIterated(disk: Disk, h: Head, plans: Item -> bool)
    requires DiskSorted(disk) && HeadOk(h) && h.phase == CONTENT
    ensures Iterated(disk, h, ContentStep(disk, h, plans))
  {
    hide *;
    ContentCases(disk, h, plans);
    HeadBounds(disk, h);
    var ls := Leaves(disk.tree);
    LeavesAre(disk.tree);
    NextLeafExact(disk.tree, h.shard);
    ContentItems(disk, h.shard, h.after);
    match NextContentLeaf(disk.tree, h.shard)
    case NoLeaf =>
      NothingLeft(ls, h.shard, h.after);
      NoFiles();
      PhaseEnds(disk, h, [], 1);
    case EmptyFirst(shard) =>
      OverGap(ls, h.shard, h.after, shard);
      ContentItems(disk, shard, -1);
      PhaseGoesOn(disk, h, shard, -1, [], 1);
    case LeafAt(leaf) =>
      var k :| 0 <= k < |ls| && ls[k] == leaf;
      LeafBound(ls, k);
      if leaf.number != h.shard {
        OverGap(ls, h.shard, h.after, leaf.number);
        ContentItems(disk, leaf.number, -1);
        PhaseGoesOn(disk, h, leaf.number, -1, [], 1);
      } else {
        InLeafIterated(disk, h, k, plans);
      }
  }

  /** In the leaf the head names: its next name, or past the leaf. */
  lemma InLeafIterated(disk: Disk, h: Head, k: nat, plans: Item -> bool)
    requires DiskSorted(disk) && HeadOk(h) && h.phase == CONTENT
    requires LeavesSorted(Leaves(disk.tree)) && k < |Leaves(disk.tree)| && Leaves(disk.tree)[k].number == h.shard
    ensures |disk.tables| == TERMINAL && Iterated(disk, h, InLeafStep(h, Leaves(disk.tree)[k], plans))
  {
    hide Leaves, FilesFrom, DiskSorted, NextName, AsItems, LeavesSorted, PhaseItems, Iterated, FromPhase, Remaining, KeysAfter;
    var ls := Leaves(disk.tree);
    HeadBounds(disk, h);
    LeafBound(ls, k);
    ContentItems(disk, h.shard, h.after);
    LeafStep(ls, k, h.after);
    var name := NextName(ls[k].names, h.after);
    if name.None? {
      ContentItems(disk, h.shard + 1, -1);
      PhaseGoesOn(disk, h, h.shard + 1, -1, [], 1);
    } else if !h.pending && plans(ContentFile(h.shard, name.value)) {
      PhasePlans(disk, h);
    } else {
      ContentItems(disk, h.shard, name.value);
      PhaseGoesOn(disk, h, h.shard, name.value, [ContentFile(h.shard, name.value)], 1);
    }
  }

  lemma LeafBound(ls: seq<Shard>, k: nat)
    requires LeavesSorted(ls) && k < |ls|
    ensures ls[k].number < SHARDS
  {
  }

  lemma NoFiles()
    ensures AsItems([]) == []
  {
  }

  /** In a leaf: the next name is handled, or there is none and the leaf is left. */
  lemma LeafStep(ls: seq<Shard>, k: nat, after: int)
    requires LeavesSorted(ls) && k < |ls|
    ensures var name := NextName(ls[k].names, after);
            if name.None? then AsItems(FilesFrom(ls, ls[k].number, after)) == AsItems(FilesFrom(ls, ls[k].number + 1, -1))
            else after < name.value
                 && AsItems(FilesFrom(ls, ls[k].number, after))
                      == [ContentFile(ls[k].number, name.value)] + AsItems(FilesFrom(ls, ls[k].number, name.value))
  {
    NextNameExact(ls[k].number, ls[k].names, after);
    AtLeaf(ls, k, after);
    var name := NextName(ls[k].names, after);
    if name.None? {
      assert FilesFrom(ls, ls[k].number, after) == FilesFrom(ls, ls[k].number + 1, -1);
    } else {
      AtLeaf(ls, k, name.value);
      hide NextName, NamesAfter, FilesFrom, LeavesSorted;
      var file := (ls[k].number, name.value);
      assert FilesFrom(ls, ls[k].number, after) == [file] + FilesFrom(ls, ls[k].number, name.value);
      AsItemsConcat([file], FilesFrom(ls, ls[k].number, name.value));
      OneFile(file);
    }
  }

  lemma OneFile(f: File)
    ensures AsItems([f]) == [ContentFile(f.0, f.1)]
  {
    assert [f][1..] == [];
  }

  /** Only the content phase has shards, and evidence pages need no plans. */
  predicate InPlace(h: Head) {
    (h.phase != CONTENT ==> h.shard == 0) && (h.phase < EVIDENCE_PHASES ==> !h.pending)
  }

  lemma Iteration(disk: Disk, h: Head, limit: nat, plans: Item -> bool)
    requires DiskSorted(disk) && HeadOk(h) && h.phase < TERMINAL && limit > 0 && InPlace(h)
    ensures Iterated(disk, h, Iterate(disk, h, limit, plans)) && InPlace(Iterate(disk, h, limit, plans).head)
  {
    hide Iterated, KeysAfter, NextName, NextContentLeaf, DiskSorted, EvidenceStep, ContentStep, KeyedStep, InPlace;
    HeadBounds(disk, h);
    if h.phase < EVIDENCE_PHASES {
      EvidenceInPlace(disk, h, limit);
      EvidenceIterated(disk, h, limit);
    } else if h.phase == CONTENT {
      ContentInPlace(disk, h, plans);
      ContentIterated(disk, h, plans);
    } else {
      KeyedInPlace(disk, h, plans);
      KeyedIterated(disk, h, plans);
    }
  }

  lemma EvidenceInPlace(disk: Disk, h: Head, limit: nat)
    requires |disk.tables| == TERMINAL && h.phase < EVIDENCE_PHASES && InPlace(h)
    ensures h.shard == 0 && !h.pending && InPlace(EvidenceStep(disk, h, limit).head)
  {
    hide KeysAfter, Take;
  }

  lemma KeyedInPlace(disk: Disk, h: Head, plans: Item -> bool)
    requires |disk.tables| == TERMINAL && EVIDENCE_PHASES <= h.phase < TERMINAL && h.phase != CONTENT && InPlace(h)
    ensures h.shard == 0 && InPlace(KeyedStep(disk, h, plans).head)
  {
    hide NextName;
  }

  lemma ContentInPlace(disk: Disk, h: Head, plans: Item -> bool)
    requires h.phase == CONTENT
    ensures InPlace(ContentStep(disk, h, plans).head)
  {
    hide NextName, NextContentLeaf;
  }

  // ----- A call, and a run of calls -----

  /**
    One call of `reconcile`: iterations until the run ends or the budget of items is used up. It moves the
    head strictly forward, and what it handled together with what it left is what there was to handle.
   */
  method ReconcileCall(disk: Disk, start: Head, maxItems: nat, plans: Item -> bool) returns (h: Head, handled: seq<Item>)
    requires DiskSorted(disk) && HeadOk(start) && maxItems > 0 && InPlace(start)
    ensures HeadOk(h) && InPlace(h)
    ensures Remaining(disk, start) == handled + Remaining(disk, h)
    ensures start.phase < TERMINAL ==> Forward(start, h) && Nearer(disk, start, h)
  {
    hide *;
    h, handled := start, [];
    var processed := 0;
    HeadBounds(disk, start);
    while processed < maxItems && h.phase < TERMINAL
      invariant HeadOk(h) && InPlace(h) && h.phase <= TERMINAL && h.shard <= SHARDS
      invariant Remaining(disk, start) == handled + Remaining(disk, h)
      invariant if h == start then processed == 0 else Forward(start, h) && Nearer(disk, start, h)
      decreases TERMINAL - h.phase, SHARDS - h.shard, |Remaining(disk, h)|, if h.pending then 0 else 1
    {
      Iteration(disk, h, maxItems - processed, plans);
      var s := Iterate(disk, h, maxItems - processed, plans);
      IteratedDecreases(disk, h, s);
      NearerEnd(disk, h, s.head);
      HeadBounds(disk, s.head);
      if h != start {
        ForwardOn(start, h, s.head);
        NearerOn(disk, start, h, s.head);
      }
      ForwardDiffers(start, s.head);
      handled := handled + s.handled;
      processed := processed + s.counted;
      h := s.head;
    }
  }

  lemma HeadBounds(disk: Disk, h: Head)
    requires DiskSorted(disk) && HeadOk(h)
    ensures |disk.tables| == TERMINAL && h.phase <= TERMINAL && h.shard <= SHARDS
  {
  }

  lemma ForwardDiffers(a: Head, b: Head)
    requires Forward(a, b)
    ensures a != b
  {
  }

  /**
    Calls one after another, whatever budget each has: the run comes to its end, and by then every item was
    handled exactly once, in order.
   */
  method ReconcileRun(disk: Disk, budgets: nat -> nat, plans: Item -> bool) returns (handled: seq<Item>, calls: nat)
    requires DiskSorted(disk) && forall n :: budgets(n) > 0
    ensures |disk.tables| == TERMINAL && handled == Remaining(disk, START)
  {
    hide *;
    StartOk();
    HeadBounds(disk, START);
    var h := START;
    handled, calls := [], 0;
    while h.phase < TERMINAL
      invariant HeadOk(h) && InPlace(h) && h.phase <= TERMINAL && h.shard <= SHARDS
      invariant Remaining(disk, START) == handled + Remaining(disk, h)
      decreases TERMINAL - h.phase, SHARDS - h.shard, |Remaining(disk, h)|, if h.pending then 0 else 1
    {
      var next, more := ReconcileCall(disk, h, budgets(calls), plans);
      NearerEnd(disk, h, next);
      HeadBounds(disk, next);
      h, handled, calls := next, handled + more, calls + 1;
    }
    TerminalDone(disk, h);
  }

  lemma StartOk()
    ensures HeadOk(START) && InPlace(START)
  {
  }

  lemma TerminalDone(disk: Disk, h: Head)
    requires |disk.tables| == TERMINAL && h.phase == TERMINAL
    ensures Remaining(disk, h) == []
  {
  }

  // ----- Everything is there to begin with -----

  lemma {:induction false} AllKeys(phase: nat, keys: seq<nat>)
    ensures |KeysAfter(phase, keys, -1)| == |keys|
    ensures forall i :: 0 <= i < |keys| ==> KeysAfter(phase, keys, -1)[i] == Row(phase, keys[i])
  {
    if keys != [] { AllKeys(phase, keys[1..]); }
  }

  lemma {:induction false} EveryFile(ls: seq<Shard>, k: nat, i: nat)
    requires k < |ls| && i < |ls[k].names|
    ensures (ls[k].number, ls[k].names[i]) in FilesFrom(ls, 0, -1)
  {
    if k == 0 { EveryName(ls[0].number, ls[0].names, i); } else { EveryFile(ls[1..], k - 1, i); }
  }

  lemma {:induction false} EveryName(shard: nat, names: seq<nat>, i: nat)
    requires i < |names|
    ensures (shard, names[i]) in NamesAfter(shard, names, -1)
  {
    if i > 0 { EveryName(shard, names[1..], i - 1); }
  }

  lemma {:induction false} FileItem(files: seq<File>, f: File)
    requires f in files
    ensures ContentFile(f.0, f.1) in AsItems(files)
  {
    if files[0] != f {
      assert files == [files[0]] + files[1..];
      FileItem(files[1..], f);
    }
  }

  lemma {:induction false} InPhase(disk: Disk, from: nat, phase: nat, x: Item)
    requires |disk.tables| == TERMINAL && from <= phase < TERMINAL && x in PhaseItems(disk, phase, 0, -1)
    ensures x in FromPhase(disk, from)
    decreases phase - from
  {
    hide PhaseItems;
    if from < phase { InPhase(disk, from + 1, phase, x); }
  }

  /** Nothing is missed: every row of every table and every content file is among the items of a run. */
  lemma RunCoversAll(disk: Disk)
    requires DiskSorted(disk)
    ensures forall phase, i :: 0 <= phase < TERMINAL && phase != CONTENT && 0 <= i < |disk.tables[phase]| ==>
              Row(phase, disk.tables[phase][i]) in Remaining(disk, START)
    ensures forall k, i :: 0 <= k < |Leaves(disk.tree)| && 0 <= i < |Leaves(disk.tree)[k].names| ==>
              ContentFile(Leaves(disk.tree)[k].number, Leaves(disk.tree)[k].names[i]) in Remaining(disk, START)
  {
    hide KeysAfter, FilesFrom, Leaves, AsItems, FromPhase;
    StartIs(disk);
    forall phase, i | 0 <= phase < TERMINAL && phase != CONTENT && 0 <= i < |disk.tables[phase]|
      ensures Row(phase, disk.tables[phase][i]) in Remaining(disk, START) {
      AllKeys(phase, disk.tables[phase]);
      assert KeysAfter(phase, disk.tables[phase], -1)[i] == Row(phase, disk.tables[phase][i]);
      InPhase(disk, 0, phase, Row(phase, disk.tables[phase][i]));
    }
    var ls := Leaves(disk.tree);
    forall k, i | 0 <= k < |ls| && 0 <= i < |ls[k].names| ensures ContentFile(ls[k].number, ls[k].names[i]) in Remaining(disk, START) {
      EveryFile(ls, k, i);
      FileItem(FilesFrom(ls, 0, -1), (ls[k].number, ls[k].names[i]));
      InPhase(disk, 0, CONTENT, ContentFile(ls[k].number, ls[k].names[i]));
    }
  }

  // ----- Each once -----

  function PhaseOf(x: Item): nat {
    match x case Row(phase, _) => phase case ContentFile(_, _) => CONTENT
  }

  /** The order items are handled in: by phase, then shard, then key. */
  predicate Before(x: Item, y: Item) {
    || PhaseOf(x) < PhaseOf(y)
    || (x.Row? && y.Row? && x.phase == y.phase && x.key < y.key)
    || (x.ContentFile? && y.ContentFile? && (x.shard < y.shard || (x.shard == y.shard && x.name < y.name)))
  }

  predicate InOrder(items: seq<Item>) {
    forall i, j :: 0 <= i < j < |items| ==> Before(items[i], items[j])
  }

  predicate InOrderFrom(items: seq<Item>, phase: nat) {
    InOrder(items) && forall i :: 0 <= i < |items| ==> PhaseOf(items[i]) >= phase
  }

  predicate InOrderAt(items: seq<Item>, phase: nat) {
    InOrder(items) && forall i :: 0 <= i < |items| ==> PhaseOf(items[i]) == phase
  }

  lemma {:induction false} KeysInOrder(phase: nat, keys: seq<nat>)
    requires StrictlyAscending(keys)
    ensures InOrderAt(KeysAfter(phase, keys, -1), phase)
  {
    AllKeys(phase, keys);
    forall i, j | 0 <= i < j < |keys| ensures keys[i] < keys[j] {
      AscendingPairs(keys, i, j);
    }
    hide KeysAfter;
  }

  predicate FileBefore(x: File, y: File) {
    x.0 < y.0 || (x.0 == y.0 && x.1 < y.1)
  }

  /** Files in order, none in a shard below the given one. */
  predicate FilesInOrder(files: seq<File>, shard: nat) {
    && (forall i, j :: 0 <= i < j < |files| ==> FileBefore(files[i], files[j]))
    && (forall i :: 0 <= i < |files| ==> files[i].0 >= shard)
  }

  lemma {:induction false} AllNames(shard: nat, names: seq<nat>)
    ensures |NamesAfter(shard, names, -1)| == |names|
    ensures forall i :: 0 <= i < |names| ==> NamesAfter(shard, names, -1)[i] == (shard, names[i])
  {
    if names != [] { AllNames(shard, names[1..]); }
  }

  lemma {:induction false} AllFilesInOrder(ls: seq<Shard>)
    requires LeavesSorted(ls)
    ensures FilesInOrder(FilesFrom(ls, 0, -1), if ls == [] then 0 else ls[0].number)
  {
    if ls != [] {
      LeavesTail(ls);
      AllFilesInOrder(ls[1..]);
      assert StrictlyAscending(ls[0].names);
      LeafThenRest(ls[0].number, ls[0].names, FilesFrom(ls[1..], 0, -1), if |ls| == 1 then ls[0].number + 1 else ls[1].number);
    }
  }

  lemma LeafThenRest(shard: nat, names: seq<nat>, rest: seq<File>, next: nat)
    requires StrictlyAscending(names) && shard < next && (rest == [] || FilesInOrder(rest, next))
    ensures FilesInOrder(NamesAfter(shard, names, -1) + rest, shard)
  {
    AllNames(shard, names);
    forall i, j | 0 <= i < j < |names| ensures names[i] < names[j] {
      AscendingPairs(names, i, j);
    }
    hide NamesAfter, StrictlyAscending;
  }

  lemma {:induction false} ItemsAre(files: seq<File>)
    ensures forall i :: 0 <= i < |files| ==> AsItems(files)[i] == ContentFile(files[i].0, files[i].1)
  {
    if files != [] { ItemsAre(files[1..]); }
  }

  lemma PhaseInOrder(disk: Disk, phase: nat)
    requires DiskSorted(disk) && phase < TERMINAL
    ensures |disk.tables| == TERMINAL && InOrderAt(PhaseItems(disk, phase, 0, -1), phase)
  {
    if phase == CONTENT {
      LeavesAre(disk.tree);
      AllFilesInOrder(Leaves(disk.tree));
      ItemsAre(FilesFrom(Leaves(disk.tree), 0, -1));
      hide Leaves, FilesFrom, LeavesSorted, DiskSorted, AsItems, KeysAfter;
    } else {
      KeysInOrder(phase, disk.tables[phase]);
    }
  }

  lemma OrdersJoin(a: seq<Item>, b: seq<Item>, phase: nat)
    requires InOrderAt(a, phase) && InOrderFrom(b, phase + 1)
    ensures InOrderFrom(a + b, phase)
  {
  }

  lemma {:induction false} FromInOrder(disk: Disk, phase: nat)
    requires DiskSorted(disk)
    ensures |disk.tables| == TERMINAL && InOrderFrom(FromPhase(disk, phase), phase)
    decreases TERMINAL - phase
  {
    if phase < TERMINAL {
      PhaseInOrder(disk, phase);
      FromInOrder(disk, phase + 1);
      OrdersJoin(PhaseItems(disk, phase, 0, -1), FromPhase(disk, phase + 1), phase);
    }
    hide PhaseItems, InOrderAt, InOrderFrom;
  }

  /** A run handles its items in order, so none of them twice. */
  lemma RunInOrder(disk: Disk)
    requires DiskSorted(disk)
    ensures |disk.tables| == TERMINAL && InOrder(Remaining(disk, START)) && Distinct(Remaining(disk, START))
  {
    HeadBounds(disk, START);
    StartIs(disk);
    FromInOrder(disk, 0);
    hide Remaining, FromPhase, DiskSorted;
  }

  lemma StartIs(disk: Disk)
    requires |disk.tables| == TERMINAL
    ensures Remaining(disk, START) == FromPhase(disk, 0)
  {
    hide PhaseItems;
  }
}
