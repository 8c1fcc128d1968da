/**
  Whole runs of the client's queue in which any write may be cut short: which records are pending, in
  which order, and which are lost (packages/cli/src/daemon/queue.ts).
  */
module QueueRuns {
  import opened Common
  import opened Queue

  /* ---------- what a run says about its record file ---------- */

  predicate Writes(op: Op) { op.Add? || op.TornAdd? }

  /** Something of a record reached the disk. */
  predicate Appends(op: Op) { op.Add? || (op.TornAdd? && !op.cut.Nothing?) }

  predicate Renames(op: Op) { op.Compact? && !op.progress.BeforeRename? }

  /** The last write to the record file that left something there ended its line. */
  predicate LineStart(ops: seq<Op>)
  {
    |ops| == 0 ||
    var op := ops[|ops| - 1];
    op.Add? || Renames(op) || (!Appends(op) && LineStart(ops[..|ops| - 1]))
  }

  predicate Renamed(ops: seq<Op>, from: nat, until: nat)
    requires until <= |ops|
  {
    exists m :: from < m < until && Renames(ops[m])
  }

  /** A later append came right behind the write at position i, with no rewriting of the file in between. */
  predicate Glued(ops: seq<Op>, i: nat)
  {
    exists k :: i < k < |ops| && Appends(ops[k]) && !Renamed(ops, i, k)
  }

  /** The record written at position i has a readable line: a whole one, or a cut one that lacks only its end. */
  predicate Lands(ops: seq<Op>, i: nat)
    requires i < |ops|
  {
    && LineStart(ops[..i])
    && (ops[i].Add? || (ops[i].TornAdd? && ops[i].cut.AllButNewline? && !Glued(ops, i)))
  }

  /* ---------- what it says about its marks ---------- */

  /** The identifiers a mark wrote in full. */
  function Reached(op: Op): seq<Id>
  {
    match op
    case Mark(ids) => ids
    case TornMark(ids, n, cut) =>
      if n >= |ids| then [] else if cut.AllButNewline? then ids[..n + 1] else ids[..n]
    case _ => []
  }

  predicate Unmarked(ops: seq<Op>, id: Id) { forall k :: 0 <= k < |ops| ==> id !in Reached(ops[k]) }

  /** The last write to the file of identifiers left an unfinished line. */
  predicate LooseSent(ops: seq<Op>)
  {
    |ops| > 0 &&
    var op, before := ops[|ops| - 1], LooseSent(ops[..|ops| - 1]);
    match op
    case Mark(ids) => |ids| == 0 && before
    case TornMark(ids, n, cut) => if n >= |ids| || (n == 0 && cut.Nothing?) then before else !cut.Nothing?
    case Compact(p) => before && !p.Finished?
    case _ => before
  }

  function From<T>(s: seq<T>, n: nat): seq<T> { if n <= |s| then s[n..] else [] }

  /** The identifiers the mark at position k wrote for good: not glued to an unfinished line, and not left unfinished. */
  function Surely(ops: seq<Op>, k: nat): seq<Id>
    requires k < |ops|
  {
    var glued := if LooseSent(ops[..k]) then 1 else 0;
    match ops[k]
    case Mark(ids) => From(ids, glued)
    case TornMark(ids, n, cut) => if n >= |ids| then [] else From(ids[..n], glued)
    case _ => []
  }

  /** A compaction found too many records and dropped this one among the oldest. */
  ghost predicate Dropped(ops: seq<Op>, max: nat, r: Record)
  {
    exists c :: 0 <= c < |ops| && DroppedAt(ops, max, r, c)
  }

  ghost predicate DroppedAt(ops: seq<Op>, max: nat, r: Record, c: nat)
    requires c < |ops|
  {
    var pending := Pending(DoAll(ops[..c], max));
    Renames(ops[c]) && |pending| > max > 0 && r in pending[..|pending| - max]
  }

  /* ---------- positions of the records on disk ---------- */

  predicate Increasing(at: seq<nat>, bound: nat)
  {
    && (forall j :: 0 <= j < |at| ==> at[j] < bound)
    && (forall j, k :: 0 <= j < k < |at| ==> at[j] < at[k])
  }

  predicate AllWrite(ops: seq<Op>, at: seq<nat>)
  {
    forall j :: 0 <= j < |at| ==> at[j] < |ops| && Writes(ops[at[j]])
  }

  function RecordsAt(ops: seq<Op>, at: seq<nat>): seq<Record>
    requires AllWrite(ops, at)
  {
    seq(|at|, j requires 0 <= j < |at| => ops[at[j]].record)
  }

  /** The positions whose lines are finished, when those of all readable lines are known. */
  function Finished(f: RecordFile, at: seq<nat>): seq<nat>
  {
    if f.tail.Loose? && f.tail.record.Some? && |at| > 0 then at[..|at| - 1] else at
  }

  /** Where the readable lines of a record file come from, oldest first. */
  ghost predicate Traced(ops: seq<Op>, f: RecordFile, at: seq<nat>)
  {
    && Increasing(at, |ops|) && AllWrite(ops, at)
    && ReadAll(f) == RecordsAt(ops, at)
    && (f.tail.Clean? <==> LineStart(ops))
    && AllLand(ops, at)
    && AllSafe(ops, Finished(f, at))
    && (f.tail.Loose? && f.tail.record.Some? ==> |at| > 0 && at[|at| - 1] < |ops| && !Safe(ops, at[|at| - 1]))
  }

  ghost predicate AllLand(ops: seq<Op>, at: seq<nat>)
  {
    forall j :: 0 <= j < |at| ==> at[j] < |ops| && Lands(ops, at[j])
  }

  /** No later append can be glued to these lines. */
  ghost predicate AllSafe(ops: seq<Op>, at: seq<nat>)
  {
    forall j :: 0 <= j < |at| ==> at[j] < |ops| && Safe(ops, at[j])
  }

  ghost predicate Safe(ops: seq<Op>, i: nat)
    requires i < |ops|
  {
    ops[i].Add? || Renamed(ops, i, |ops|)
  }

  lemma {:induction false} SameSoFar(ops: seq<Op>, op: Op, i: nat)
    requires i < |ops|
    ensures (ops + [op])[..i] == ops[..i]
    ensures Lands(ops + [op], i) ==> Lands(ops, i)
    ensures Lands(ops, i) && (ops[i].Add? || !Appends(op) || Renamed(ops, i, |ops|)) ==> Lands(ops + [op], i)
    ensures Renamed(ops, i, |ops|) || Renames(op) <==> Renamed(ops + [op], i, |ops| + 1)
  {
    var all := ops + [op];
    assert all[..i] == ops[..i];
    forall k | i < k <= |ops| ensures Renamed(all, i, k) <==> Renamed(ops, i, k) {
      RenamedSoFar(ops, op, i, k);
    }
    hide LineStart, Renamed;
    if Glued(ops, i) {
      var k :| i < k < |ops| && Appends(ops[k]) && !Renamed(ops, i, k);
      assert Appends(all[k]) && !Renamed(all, i, k);
    }
    if Glued(all, i) && !Glued(ops, i) {
      var k :| i < k < |all| && Appends(all[k]) && !Renamed(all, i, k);
      assert k == |ops|;
    }
    RenamedNow(ops, op, i);
  }

  lemma {:induction false} RenamedSoFar(ops: seq<Op>, op: Op, i: nat, k: nat)
    requires k <= |ops|
    ensures Renamed(ops + [op], i, k) <==> Renamed(ops, i, k)
  {
    var all := ops + [op];
    if Renamed(ops, i, k) {
      var m :| i < m < k && Renames(ops[m]);
      assert Renames(all[m]);
    }
    if Renamed(all, i, k) {
      var m :| i < m < k && Renames(all[m]);
      assert Renames(ops[m]);
    }
  }

  lemma {:induction false} RenamedNow(ops: seq<Op>, op: Op, i: nat)
    requires i < |ops|
    ensures Renamed(ops, i, |ops|) || Renames(op) <==> Renamed(ops + [op], i, |ops| + 1)
  {
    var all := ops + [op];
    if Renamed(ops, i, |ops|) {
      var m :| i < m < |ops| && Renames(ops[m]);
      assert Renames(all[m]);
    }
    if Renames(op) {
      assert Renames(all[|ops|]);
    }
    if Renamed(all, i, |all|) {
      var m :| i < m < |all| && Renames(all[m]);
      assert m == |ops| || Renames(ops[m]);
    }
  }

  /** What an append, finished or torn, makes readable. */
  lemma {:induction false} AppendReads(f: RecordFile, r: Record, cut: Cut)
    ensures ReadAll(AppendRecord(f, r)) == if f.tail.Clean? then ReadAll(f) + [r] else OfLines(f.lines)
    ensures ReadAll(TearRecord(f, r, Part)) == OfLines(f.lines)
    ensures ReadAll(TearRecord(f, r, AllButNewline)) == if f.tail.Clean? then ReadAll(f) + [r] else OfLines(f.lines)
    ensures f.tail.Loose? && f.tail.record.Some? ==> ReadAll(f) == OfLines(f.lines) + [f.tail.record.value]
    ensures !(f.tail.Loose? && f.tail.record.Some?) ==> ReadAll(f) == OfLines(f.lines)
  {
    var l := if f.tail.Clean? then Good(r) else Garbage;
    assert (f.lines + [l])[..|f.lines|] == f.lines;
    assert OfLines(f.lines) + [] == OfLines(f.lines);
  }

  lemma {:induction false} FinishedReads(ops: seq<Op>, f: RecordFile, at: seq<nat>)
    requires AllWrite(ops, at) && ReadAll(f) == RecordsAt(ops, at)
    ensures AllWrite(ops, Finished(f, at)) && OfLines(f.lines) == RecordsAt(ops, Finished(f, at))
  {
    AppendReads(f, Record(EMPTY, 0), Part);
    hide OfLines, ReadAll;
    if f.tail.Loose? && f.tail.record.Some? {
      var whole := OfLines(f.lines) + [f.tail.record.value];
      assert whole[..|whole| - 1] == OfLines(f.lines);
      assert RecordsAt(ops, at)[..|at| - 1] == RecordsAt(ops, at[..|at| - 1]);
    }
  }

  /** The lines that nothing can be glued to stay readable. */
  lemma {:induction false} SafeStay(ops: seq<Op>, op: Op, at: seq<nat>)
    requires AllLand(ops, at) && (AllSafe(ops, at) || !Appends(op))
    ensures AllLand(ops + [op], at)
    ensures AllSafe(ops, at) ==> AllSafe(ops + [op], at)
  {
    forall j | 0 <= j < |at| ensures Lands(ops + [op], at[j]) && (Safe(ops, at[j]) ==> Safe(ops + [op], at[j])) {
      SameSoFar(ops, op, at[j]);
      hide Lands, Renamed;
    }
  }

  lemma {:induction false} NewestLands(ops: seq<Op>, op: Op)
    requires LineStart(ops) && (op.Add? || (op.TornAdd? && op.cut.AllButNewline?))
    ensures Lands(ops + [op], |ops|)
  {
    assert (ops + [op])[..|ops|] == ops;
  }

  lemma {:induction false} RecordsExtend(ops: seq<Op>, op: Op, at: seq<nat>)
    requires AllWrite(ops, at)
    ensures AllWrite(ops + [op], at) && RecordsAt(ops + [op], at) == RecordsAt(ops, at)
    ensures Writes(op) ==> AllWrite(ops + [op], at + [|ops|]) && RecordsAt(ops + [op], at + [|ops|]) == RecordsAt(ops, at) + [op.record]
  {}

  function Written(f: RecordFile, op: Op): RecordFile
    requires Writes(op)
  {
    if op.Add? then AppendRecord(f, op.record) else TearRecord(f, op.record, op.cut)
  }

  predicate Readable(ops: seq<Op>, op: Op) { LineStart(ops) && (op.Add? || (op.TornAdd? && op.cut.AllButNewline?)) }

  lemma {:induction false} OneMore(ops: seq<Op>, op: Op, at: seq<nat>)
    requires Increasing(at, |ops|) && AllLand(ops + [op], at)
    ensures Increasing(at, |ops| + 1)
    ensures Readable(ops, op) ==> Increasing(at + [|ops|], |ops| + 1) && AllLand(ops + [op], at + [|ops|])
    ensures Readable(ops, op) && op.Add? && AllSafe(ops + [op], at) ==> AllSafe(ops + [op], at + [|ops|])
  {
    if Readable(ops, op) {
      NewestLands(ops, op);
    }
    hide Lands, Renamed, LineStart;
  }

  lemma {:induction false} WholeIncreases(f: RecordFile, at: seq<nat>, bound: nat)
    requires Increasing(at, bound)
    ensures Increasing(Finished(f, at), bound)
  {}

  lemma {:induction false} WholeLand(ops: seq<Op>, f: RecordFile, at: seq<nat>)
    requires AllLand(ops, at)
    ensures AllLand(ops, Finished(f, at))
  {
    hide Lands;
  }

  lemma {:induction false} LineStartNow(ops: seq<Op>, op: Op)
    requires Appends(op)
    ensures LineStart(ops + [op]) <==> op.Add?
  {
    assert (ops + [op])[..|ops|] == ops;
  }

  /** The positions of the readable lines after an append, finished or torn. */
  function Placed(ops: seq<Op>, f: RecordFile, at: seq<nat>, op: Op): seq<nat>
  {
    Finished(f, at) + (if Readable(ops, op) then [|ops|] else [])
  }

  lemma {:induction false} PlacedReads(ops: seq<Op>, f: RecordFile, at: seq<nat>, op: Op)
    requires AllWrite(ops, at) && ReadAll(f) == RecordsAt(ops, at) && (f.tail.Clean? <==> LineStart(ops)) && Appends(op)
    ensures AllWrite(ops + [op], Placed(ops, f, at, op))
    ensures ReadAll(Written(f, op)) == RecordsAt(ops + [op], Placed(ops, f, at, op))
  {
    AppendReads(f, op.record, Part);
    FinishedReads(ops, f, at);
    RecordsExtend(ops, op, Finished(f, at));
    hide OfLines, ReadAll, RecordsAt, AllWrite, LineStart;
  }

  lemma {:induction false} PlacedLands(ops: seq<Op>, f: RecordFile, at: seq<nat>, op: Op)
    requires Increasing(at, |ops|) && AllLand(ops, at) && AllSafe(ops, Finished(f, at)) && Appends(op)
    ensures var at' := Placed(ops, f, at, op);
            && Increasing(at', |ops| + 1) && AllLand(ops + [op], at') && AllSafe(ops + [op], Finished(f, at))
            && (op.Add? ==> AllSafe(ops + [op], at'))
  {
    WholeIncreases(f, at, |ops|);
    WholeLand(ops, f, at);
    hide AllLand, AllSafe, Increasing, LineStart;
    SafeStay(ops, op, Finished(f, at));
    OneMore(ops, op, Finished(f, at));
    assert !Readable(ops, op) ==> Placed(ops, f, at, op) == Finished(f, at);
  }

  /** A record reaches the file, in whole or in part. */
  lemma {:induction false} AppendTraced(ops: seq<Op>, f: RecordFile, at: seq<nat>, op: Op) returns (at': seq<nat>)
    requires Traced(ops, f, at) && Appends(op)
    ensures at' == Finished(f, at) + (if Readable(ops, op) then [|ops|] else [])
    ensures Traced(ops + [op], Written(f, op), at')
  {
    at' := Placed(ops, f, at, op);
    PlacedReads(ops, f, at, op);
    PlacedLands(ops, f, at, op);
    LineStartNow(ops, op);
    assert op.TornAdd? ==> !Safe(ops + [op], |ops|);
    hide ReadAll, RecordsAt, AllLand, AllSafe, AllWrite, Increasing, LineStart, Safe;
    assert Finished(Written(f, op), at') == if op.Add? then at' else Finished(f, at);
  }

  /** Nothing happens to the record file. */
  lemma {:induction false} IdleTraced(ops: seq<Op>, f: RecordFile, at: seq<nat>, op: Op)
    requires Traced(ops, f, at) && !Appends(op) && !Renames(op)
    ensures Traced(ops + [op], f, at)
  {
    assert (ops + [op])[..|ops|] == ops;
    WholeLand(ops, f, at);
    SafeStay(ops, op, at);
    SafeStay(ops, op, Finished(f, at));
    RecordsExtend(ops, op, at);
    if |at| > 0 && at[|at| - 1] < |ops| {
      SameSoFar(ops, op, at[|at| - 1]);
    }
    assert LineStart(ops + [op]) <==> LineStart(ops);
    hide ReadAll, RecordsAt, AllLand, AllSafe, AllWrite, LineStart, Renamed;
  }

  function UnsentAt(ops: seq<Op>, sent: set<Id>): nat -> bool
  {
    (i: nat) => i < |ops| && Writes(ops[i]) && ops[i].record.id !in sent
  }

  lemma {:induction false} RecordsSnoc(ops: seq<Op>, at: seq<nat>, i: nat)
    requires AllWrite(ops, at) && i < |ops| && Writes(ops[i])
    ensures AllWrite(ops, at + [i]) && RecordsAt(ops, at + [i]) == RecordsAt(ops, at) + [ops[i].record]
  {}

  lemma {:induction false} SnocIncreases(at: seq<nat>, i: nat, bound: nat)
    requires i < bound
    ensures Increasing(at + [i], bound) <==> Increasing(at, bound) && forall j :: 0 <= j < |at| ==> at[j] < i
  {
    var all := at + [i];
    assert all[|at|] == i && forall j :: 0 <= j < |at| ==> all[j] == at[j];
  }

  lemma {:induction false} KeepIncreases(at: seq<nat>, p: nat -> bool, bound: nat)
    requires Increasing(at, bound)
    ensures Increasing(Keep(at, p), bound)
  {
    if |at| > 0 {
      var front, last := at[..|at| - 1], at[|at| - 1];
      assert at == front + [last] && last < bound;
      SnocIncreases(front, last, bound);
      hide Increasing, Keep;
      KeepIncreases(front, p, bound);
      KeepSnoc<nat>(front, last, p);
      var kept := Keep<nat>(front, p);
      forall j | 0 <= j < |kept| ensures kept[j] < last {
        assert kept[j] in front;
      }
      SnocIncreases(kept, last, bound);
    }
  }

  lemma {:induction false} KeepPositions(ops: seq<Op>, at: seq<nat>, sent: set<Id>)
    requires AllWrite(ops, at)
    ensures AllWrite(ops, Keep(at, UnsentAt(ops, sent)))
    ensures RecordsAt(ops, Keep(at, UnsentAt(ops, sent))) == Keep(RecordsAt(ops, at), Unsent(sent))
  {
    if |at| > 0 {
      var front, last := at[..|at| - 1], at[|at| - 1];
      KeepPositions(ops, front, sent);
      RecordsSnoc(ops, front, last);
      RecordsSnoc(ops, Keep(front, UnsentAt(ops, sent)), last);
      assert at == front + [last];
      KeepSnoc(front, last, UnsentAt(ops, sent));
      KeepSnoc(RecordsAt(ops, front), ops[last].record, Unsent(sent));
      assert UnsentAt(ops, sent)(last) <==> Unsent(sent)(ops[last].record);
      hide RecordsAt, Keep, AllWrite, UnsentAt, Unsent;
    }
  }

  lemma {:induction false} NewestPositions(ops: seq<Op>, at: seq<nat>, max: nat)
    requires AllWrite(ops, at) && Increasing(at, |ops|)
    ensures AllWrite(ops, Newest(at, max)) && Increasing(Newest(at, max), |ops|)
    ensures RecordsAt(ops, Newest(at, max)) == Newest(RecordsAt(ops, at), max)
  {}

  /** The positions of what is pending, when those of all readable lines are known. */
  function PendingAt(ops: seq<Op>, at: seq<nat>, d: Disk): seq<nat> { Keep(at, UnsentAt(ops, ReadSent(d.sent))) }

  lemma {:induction false} RenameLands(ops: seq<Op>, op: Op, at: seq<nat>, kept: seq<nat>)
    requires AllLand(ops, at) && Renames(op) && forall i :: i in kept ==> i in at
    ensures AllLand(ops + [op], kept) && AllSafe(ops + [op], kept)
  {
    forall j | 0 <= j < |kept| ensures kept[j] < |ops| && Lands(ops + [op], kept[j]) && Safe(ops + [op], kept[j]) {
      assert kept[j] in at;
      SameSoFar(ops, op, kept[j]);
      hide Lands, Renamed;
    }
  }

  lemma {:induction false} RewrittenReads(d: Disk, max: nat, p: Progress)
    requires !p.BeforeRename?
    ensures ReadAll(Compacted(d, max, p).records) == Newest(Pending(d), max) && Compacted(d, max, p).records.tail.Clean?
  {
    LinesReadBack(Newest(Pending(d), max));
  }

  /** A compaction that got past the rename. */
  lemma {:induction false} RenameTraced(ops: seq<Op>, d: Disk, at: seq<nat>, max: nat, op: Op) returns (at': seq<nat>)
    requires Traced(ops, d.records, at) && Renames(op)
    ensures at' == Newest(PendingAt(ops, at, d), max)
    ensures Traced(ops + [op], Do(d, op, max).records, at')
  {
    at' := Newest(PendingAt(ops, at, d), max);
    KeepPositions(ops, at, ReadSent(d.sent));
    KeepIncreases(at, UnsentAt(ops, ReadSent(d.sent)), |ops|);
    NewestPositions(ops, PendingAt(ops, at, d), max);
    RecordsExtend(ops, op, at');
    RewrittenReads(d, max, op.progress);
    RenameLands(ops, op, at, at');
    assert LineStart(ops + [op]);
    hide OfLines, ReadAll, RecordsAt, AllLand, AllSafe, AllWrite, Increasing, LineStart, Safe, Keep, Compacted, Newest, Pending, PendingAt;
    assert Finished(Compacted(d, max, op.progress).records, at') == at';
  }

  /* ---------- no record is missing ---------- */

  /** Nothing but a mark or the limit takes a record away that landed. */
  ghost predicate Missed(ops: seq<Op>, max: nat, i: nat)
    requires i < |ops| && Writes(ops[i])
  {
    !Unmarked(ops, ops[i].record.id) || Dropped(ops, max, ops[i].record)
  }

  ghost predicate Complete(ops: seq<Op>, max: nat, at: seq<nat>)
  {
    forall i :: 0 <= i < |ops| && Writes(ops[i]) && Lands(ops, i) && !Missed(ops, max, i) ==> i in at
  }

  lemma {:induction false} MissedStays(ops: seq<Op>, op: Op, max: nat, i: nat)
    requires i < |ops| && Writes(ops[i]) && Missed(ops, max, i)
    ensures Missed(ops + [op], max, i)
  {
    var all, r := ops + [op], ops[i].record;
    if !Unmarked(ops, r.id) {
      var k :| 0 <= k < |ops| && r.id in Reached(ops[k]);
      assert all[k] == ops[k];
    } else {
      var c :| 0 <= c < |ops| && DroppedAt(ops, max, r, c);
      assert all[..c] == ops[..c];
      hide Pending, DoAll;
      assert DroppedAt(all, max, r, c);
    }
  }

  lemma {:induction false} GluedNow(ops: seq<Op>, op: Op, i: nat)
    requires i < |ops| && !Safe(ops, i) && Appends(op)
    ensures !Lands(ops + [op], i)
  {
    RenamedSoFar(ops, op, i, |ops|);
    assert Appends((ops + [op])[|ops|]);
  }

  lemma {:induction false} CompleteAppend(ops: seq<Op>, f: RecordFile, at: seq<nat>, max: nat, op: Op, at': seq<nat>)
    requires Traced(ops, f, at) && Appends(op) && Complete(ops, max, at)
    requires at' == Finished(f, at) + (if Readable(ops, op) then [|ops|] else [])
    ensures Complete(ops + [op], max, at')
  {
    var all := ops + [op];
    if f.tail.Loose? && f.tail.record.Some? {
      GluedNow(ops, op, at[|at| - 1]);
    }
    assert forall i :: i in at ==> i in Finished(f, at) || (f.tail.Loose? && f.tail.record.Some? && i == at[|at| - 1]);
    forall i | 0 <= i < |all| && Writes(all[i]) && Lands(all, i) && !Missed(all, max, i) ensures i in at' {
      if i < |ops| {
        SameSoFar(ops, op, i);
        if Missed(ops, max, i) {
          MissedStays(ops, op, max, i);
        }
        hide Missed, Lands;
        assert i in at;
      } else {
        assert all[..|ops|] == ops;
        assert |ops| in [|ops|];
      }
    }
  }

  lemma {:induction false} CompleteIdle(ops: seq<Op>, at: seq<nat>, max: nat, op: Op)
    requires !Appends(op) && !Renames(op) && Complete(ops, max, at)
    ensures Complete(ops + [op], max, at)
  {
    var all := ops + [op];
    forall i | 0 <= i < |all| && Writes(all[i]) && Lands(all, i) && !Missed(all, max, i) ensures i in at {
      if i < |ops| {
        SameSoFar(ops, op, i);
        if Missed(ops, max, i) {
          MissedStays(ops, op, max, i);
        }
        hide Missed, Lands;
      }
    }
  }

  /** Every identifier read back was written by some mark. */
  ghost predicate OnlyMarked(ops: seq<Op>, d: Disk) { forall id :: id in ReadSent(d.sent) ==> !Unmarked(ops, id) }

  lemma {:induction false} OldestOrNewest<T>(s: seq<T>, max: nat, j: nat)
    requires j < |s|
    ensures (|s| > max > 0 && j < |s| - max) || s[j] in Newest(s, max)
  {
    if !(|s| > max > 0 && j < |s| - max) {
      assert Newest(s, max)[if |s| > max > 0 then j - (|s| - max) else j] == s[j];
    }
  }

  lemma {:induction false} KeptOrDropped(ops: seq<Op>, at: seq<nat>, d: Disk, max: nat, op: Op, i: nat)
    requires Traced(ops, d.records, at) && d == DoAll(ops, max) && Renames(op)
    requires i in PendingAt(ops, at, d) && i !in Newest(PendingAt(ops, at, d), max)
    ensures i < |ops| && Writes(ops[i]) && Missed(ops + [op], max, i)
  {
    var pending, all := PendingAt(ops, at, d), ops + [op];
    KeepPositions(ops, at, ReadSent(d.sent));
    var j :| 0 <= j < |pending| && pending[j] == i;
    hide Lands, Keep, ReadSent, ReadAll, AllLand, AllSafe;
    OldestOrNewest(pending, max, j);
    assert RecordsAt(ops, pending) == Pending(d);
    assert ops[i].record == Pending(d)[..|pending| - max][j];
    assert all[..|ops|] == ops;
    assert DroppedAt(all, max, ops[i].record, |ops|);
  }

  lemma {:induction false} CompleteRename(ops: seq<Op>, at: seq<nat>, d: Disk, max: nat, op: Op)
    requires Traced(ops, d.records, at) && d == DoAll(ops, max) && Renames(op) && Complete(ops, max, at) && OnlyMarked(ops, d)
    ensures Complete(ops + [op], max, Newest(PendingAt(ops, at, d), max))
  {
    var all := ops + [op];
    forall i | 0 <= i < |all| && Writes(all[i]) && Lands(all, i) && !Missed(all, max, i) ensures i in Newest(PendingAt(ops, at, d), max) {
      SameSoFar(ops, op, i);
      if Missed(ops, max, i) {
        MissedStays(ops, op, max, i);
      }
      assert i in at;
      assert UnsentAt(ops, ReadSent(d.sent))(i);
      if i !in Newest(PendingAt(ops, at, d), max) {
        KeptOrDropped(ops, at, d, max, op, i);
      }
    }
  }

  /* ---------- marks are not lost ---------- */

  /** The marks on disk, as far as the run decides them. */
  ghost predicate SentTraced(ops: seq<Op>, d: Disk) { d.sent.loose == LooseSent(ops) && OnlyMarked(ops, d) }

  lemma {:induction false} MarkedStays(ops: seq<Op>, op: Op, id: Id)
    ensures !Unmarked(ops, id) ==> !Unmarked(ops + [op], id)
    ensures id in Reached(op) ==> !Unmarked(ops + [op], id)
  {
    var all := ops + [op];
    if !Unmarked(ops, id) {
      var k :| 0 <= k < |ops| && id in Reached(ops[k]);
      assert all[k] == ops[k];
    }
    assert all[|ops|] == op;
  }

  /** What is read back comes from before or from the mark just written. */
  lemma {:induction false} ReadSentFrom(d: Disk, op: Op, max: nat)
    ensures forall id :: id in ReadSent(Do(d, op, max).sent) ==> id in ReadSent(d.sent) || id in Reached(op)
  {}

  lemma {:induction false} SentStep(ops: seq<Op>, d: Disk, op: Op, max: nat)
    requires SentTraced(ops, d)
    ensures SentTraced(ops + [op], Do(d, op, max))
  {
    var all, d' := ops + [op], Do(d, op, max);
    assert all[..|ops|] == ops;
    assert d'.sent.loose == LooseSent(all);
    ReadSentFrom(d, op, max);
    forall id | id in ReadSent(d'.sent) ensures !Unmarked(all, id) {
      MarkedStays(ops, op, id);
    }
  }

  /** The identifiers on disk for good include those of every later mark that names this record. */
  ghost predicate Held(ops: seq<Op>, sent: set<Id>, i: nat)
    requires i < |ops| && Writes(ops[i])
  {
    forall k :: i < k < |ops| && ops[i].record.id in Surely(ops, k) ==> ops[i].record.id in sent
  }

  ghost predicate AllHeld(ops: seq<Op>, sent: set<Id>, at: seq<nat>)
  {
    forall i :: i in at ==> i < |ops| && Writes(ops[i]) && Held(ops, sent, i)
  }

  lemma {:induction false} SurelySoFar(ops: seq<Op>, op: Op, k: nat)
    requires k < |ops|
    ensures Surely(ops + [op], k) == Surely(ops, k)
  {
    assert (ops + [op])[..k] == ops[..k];
  }

  /** A mark that is not glued or unfinished stays on disk until a compaction removes it with its records. */
  lemma {:induction false} SurelyWritten(ops: seq<Op>, d: Disk, op: Op, max: nat)
    requires SentTraced(ops, d) && !(op.Compact? && op.progress.Finished?)
    ensures d.sent.ids <= Do(d, op, max).sent.ids
    ensures forall id :: id in Surely(ops + [op], |ops|) ==> id in Do(d, op, max).sent.ids
  {
    assert (ops + [op])[..|ops|] == ops;
    hide OnlyMarked;
  }

  lemma {:induction false} HeldStep(ops: seq<Op>, d: Disk, op: Op, max: nat, i: nat)
    requires SentTraced(ops, d) && i < |ops| && Writes(ops[i]) && Held(ops, d.sent.ids, i)
    requires op.Compact? && op.progress.Finished? ==> ops[i].record.id !in d.sent.ids
    ensures Held(ops + [op], Do(d, op, max).sent.ids, i)
  {
    var all, id := ops + [op], ops[i].record.id;
    var finished := op.Compact? && op.progress.Finished?;
    if !finished {
      SurelyWritten(ops, d, op, max);
    }
    assert finished ==> Surely(all, |ops|) == [];
    forall k | i < k < |all| && id in Surely(all, k) ensures id in Do(d, op, max).sent.ids {
      if k < |ops| {
        SurelySoFar(ops, op, k);
      }
      hide Do, Surely;
    }
  }

  lemma {:induction false} AllHeldStep(ops: seq<Op>, d: Disk, op: Op, max: nat, at: seq<nat>, at': seq<nat>)
    requires SentTraced(ops, d) && AllHeld(ops, d.sent.ids, at)
    requires forall i :: i in at' ==> i in at || (i == |ops| && Writes(op))
    requires Renames(op) ==> forall i :: i in at' ==> i in PendingAt(ops, at, d)
    ensures AllHeld(ops + [op], Do(d, op, max).sent.ids, at')
  {
    forall i | i in at' ensures i <= |ops| && Writes((ops + [op])[i]) && Held(ops + [op], Do(d, op, max).sent.ids, i) {
      if i in at {
        assert Renames(op) ==> UnsentAt(ops, ReadSent(d.sent))(i);
        HeldStep(ops, d, op, max, i);
      }
    }
  }

  /* ---------- the whole run ---------- */

  lemma {:induction false} DoNext(ops: seq<Op>, op: Op, max: nat)
    ensures DoAll(ops + [op], max) == Do(DoAll(ops, max), op, max)
  {
    assert (ops + [op])[..|ops|] == ops;
  }

  ghost predicate Tracked(ops: seq<Op>, max: nat, at: seq<nat>)
  {
    var d := DoAll(ops, max);
    Traced(ops, d.records, at) && Complete(ops, max, at) && SentTraced(ops, d) && AllHeld(ops, d.sent.ids, at)
  }

  lemma {:induction false} NextTraced(ops: seq<Op>, d: Disk, op: Op, max: nat, at: seq<nat>) returns (at': seq<nat>)
    requires d == DoAll(ops, max) && Traced(ops, d.records, at) && Complete(ops, max, at) && SentTraced(ops, d)
    ensures Traced(ops + [op], Do(d, op, max).records, at') && Complete(ops + [op], max, at')
    ensures forall i :: i in at' ==> i in at || (i == |ops| && Writes(op))
    ensures Renames(op) ==> forall i :: i in at' ==> i in PendingAt(ops, at, d)
  {
    hide Traced, Complete, Keep, DoAll, LineStart, Compacted, AppendSent, TearSent, OnlyMarked;
    if Appends(op) {
      at' := AppendTraced(ops, d.records, at, op);
      CompleteAppend(ops, d.records, at, max, op, at');
    } else if Renames(op) {
      at' := RenameTraced(ops, d, at, max, op);
      CompleteRename(ops, at, d, max, op);
    } else {
      at' := at;
      IdleTraced(ops, d.records, at, op);
      CompleteIdle(ops, at, max, op);
      SameRecords(d, op, max);
    }
  }

  lemma {:induction false} SameRecords(d: Disk, op: Op, max: nat)
    requires !Appends(op) && !Renames(op)
    ensures Do(d, op, max).records == d.records
  {}

  lemma {:induction false} Track(ops: seq<Op>, max: nat) returns (at: seq<nat>)
    ensures Tracked(ops, max, at)
  {
    if |ops| == 0 {
      at := [];
      assert Traced(ops, NO_RECORDS, at);
    } else {
      var front, op := ops[..|ops| - 1], ops[|ops| - 1];
      assert ops == front + [op];
      var before := Track(front, max);
      var d := DoAll(front, max);
      DoNext(front, op, max);
      hide Traced, Complete, SentTraced, AllHeld, DoAll, Do;
      at := NextTraced(front, d, op, max, before);
      SentStep(front, d, op, max);
      AllHeldStep(front, d, op, max, before, at);
    }
  }

  /**
    What is pending after any run in which adds and marks may be torn and compactions cut off, given as
    positions of the run: in the order of adding, only records that landed on a line of their own, and
    none that a later mark wrote for good; and every record that landed and was not marked is there,
    unless a compaction dropped it among the oldest. So an append is lost exactly when it is glued to an
    unfinished line, and a torn one shows exactly when only its line end was missing and nothing was
    glued to it.
    */
  lemma {:induction false} PendingAfterTears(ops: seq<Op>, max: nat) returns (at: seq<nat>)
    ensures Increasing(at, |ops|) && AllWrite(ops, at) && Pending(DoAll(ops, max)) == RecordsAt(ops, at)
    ensures forall i :: i in at ==> Lands(ops, i)
    ensures forall i, k :: i in at && i < k < |ops| ==> ops[i].record.id !in Surely(ops, k)
    ensures forall i :: 0 <= i < |ops| && Writes(ops[i]) && Unmarked(ops, ops[i].record.id) && !Dropped(ops, max, ops[i].record)
              ==> (i in at <==> Lands(ops, i))
  {
    var onDisk := Track(ops, max);
    var d := DoAll(ops, max);
    at := PendingAt(ops, onDisk, d);
    KeepPositions(ops, onDisk, ReadSent(d.sent));
    KeepIncreases(onDisk, UnsentAt(ops, ReadSent(d.sent)), |ops|);
    hide DoAll, Lands, Surely, Dropped, Keep, LineStart, Unmarked, RecordsAt, ReadAll;
    forall i | i in onDisk ensures Lands(ops, i) {
      var j :| 0 <= j < |onDisk| && onDisk[j] == i;
    }
    forall i, k | i in at && i < k < |ops| ensures ops[i].record.id !in Surely(ops, k) {
      assert UnsentAt(ops, ReadSent(d.sent))(i);
      assert Held(ops, d.sent.ids, i);
    }
    forall i | 0 <= i < |ops| && Writes(ops[i]) && Unmarked(ops, ops[i].record.id) && !Dropped(ops, max, ops[i].record)
      ensures i in at <==> Lands(ops, i) {
      assert UnsentAt(ops, ReadSent(d.sent))(i);
    }
  }
}
