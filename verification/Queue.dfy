/**
  The client's append-only queue (packages/cli/src/daemon/queue.ts): one file of records, one file of
  identifiers already sent, rewritten together only by `compact`. A crash may leave any write unfinished.
  */
module Queue {
  import opened Common

  datatype Record = Record(id: Id, body: nat)

  /** A finished line: a record, or text that is not one. */
  datatype Line = Good(record: Record) | Garbage

  /** What follows the last line end: nothing, or an unfinished line, which may already hold the whole record. */
  datatype Tail = Clean | Loose(record: Option<Record>)

  datatype RecordFile = RecordFile(lines: seq<Line>, tail: Tail)

  /** The identifiers read back, and those of an unfinished line; what is glued to that line is unreadable. */
  datatype SentFile = SentFile(ids: set<Id>, loose: bool, tail: Option<Id>)

  datatype Disk = Disk(records: RecordFile, sent: SentFile)

  const NO_RECORDS: RecordFile := RecordFile([], Clean)
  const NONE_SENT: SentFile := SentFile({}, false, None)

  function OfLine(l: Line): seq<Record> { if l.Good? then [l.record] else [] }

  function OfLines(ls: seq<Line>): seq<Record>
  {
    if |ls| == 0 then [] else OfLines(ls[..|ls| - 1]) + OfLine(ls[|ls| - 1])
  }

  /** `#readAll`: unreadable lines are skipped. */
  function ReadAll(f: RecordFile): seq<Record>
  {
    OfLines(f.lines) + (if f.tail.Loose? && f.tail.record.Some? then [f.tail.record.value] else [])
  }

  /** `#readSent` */
  function ReadSent(f: SentFile): set<Id> { f.ids + (if f.loose && f.tail.Some? then {f.tail.value} else {}) }

  function Unsent(sent: set<Id>): Record -> bool { (r: Record) => r.id !in sent }

  /** `pending` */
  function Pending(d: Disk): seq<Record> { Keep(ReadAll(d.records), Unsent(ReadSent(d.sent))) }

  /* ---------- writes ---------- */

  /** A finished append of one line. After an unfinished one, both end up on one unreadable line. */
  function AppendRecord(f: RecordFile, r: Record): RecordFile
  {
    RecordFile(f.lines + [if f.tail.Clean? then Good(r) else Garbage], Clean)
  }

  /** How much of an append reached the disk when the power went. */
  datatype Cut = Nothing | Part | AllButNewline

  function TearRecord(f: RecordFile, r: Record, cut: Cut): RecordFile
  {
    match cut
    case Nothing => f
    case Part => f.(tail := Loose(None))
    case AllButNewline => f.(tail := Loose(if f.tail.Clean? then Some(r) else None))
  }

  /** A finished append of a list of identifiers; the first is lost if an unfinished line was there. */
  function AppendSent(f: SentFile, ids: seq<Id>): SentFile
  {
    if |ids| == 0 then f
    else SentFile(f.ids + (set i | (if f.loose then 1 else 0) <= i < |ids| :: ids[i]), false, None)
  }

  /** An append torn after n identifiers: the next one may be there without its line end. */
  function TearSent(f: SentFile, ids: seq<Id>, n: nat, cut: Cut): SentFile
    requires n < |ids|
  {
    var done := if n == 0 then f else AppendSent(f, ids[..n]);
    match cut
    case Nothing => done
    case Part => SentFile(done.ids, true, None)
    case AllButNewline => SentFile(done.ids, true, if n == 0 && f.loose then None else Some(ids[n]))
  }

  /** `keep.slice(-maxEntries)` of an over-long queue; a limit of zero keeps everything. */
  function Newest<T>(rs: seq<T>, max: nat): seq<T> { if |rs| > max > 0 then rs[|rs| - max..] else rs }

  function Lines(rs: seq<Record>): seq<Line> { seq(|rs|, i requires 0 <= i < |rs| => Good(rs[i])) }

  /** Where `compact` was when it stopped: before the rename, between rename and unlink, or done. */
  datatype Progress = BeforeRename | BeforeUnlink | Finished

  function Compacted(d: Disk, max: nat, p: Progress): Disk
  {
    var kept := RecordFile(Lines(Newest(Pending(d), max)), Clean);
    match p
    case BeforeRename => d
    case BeforeUnlink => d.(records := kept)
    case Finished => Disk(kept, NONE_SENT)
  }

  /* ---------- compaction at every crash point ---------- */

  lemma {:induction false} LinesReadBack(rs: seq<Record>)
    ensures OfLines(Lines(rs)) == rs
  {
    if |rs| > 0 {
      LinesReadBack(rs[..|rs| - 1]);
      assert Lines(rs)[..|rs| - 1] == Lines(rs[..|rs| - 1]);
    }
  }

  /** A file of whole lines whose records are unsent reads back as those records. */
  lemma {:induction false} WholeLinesPend(rs: seq<Record>, sent: SentFile)
    requires forall r :: r in rs ==> r.id !in ReadSent(sent)
    ensures Pending(Disk(RecordFile(Lines(rs), Clean), sent)) == rs
  {
    LinesReadBack(rs);
    KeepAll(rs, Unsent(ReadSent(sent)));
    assert ReadAll(RecordFile(Lines(rs), Clean)) == rs;
  }

  lemma {:induction false} NewestAreUnsent(d: Disk, max: nat)
    ensures forall r :: r in Newest(Pending(d), max) ==> r.id !in ReadSent(d.sent)
  {
    var pending := Pending(d);
    forall r | r in Newest(pending, max) ensures r.id !in ReadSent(d.sent) {
      assert r in pending;
      assert Unsent(ReadSent(d.sent))(r);
    }
  }

  /** Wherever it stops, compaction leaves what was pending: all of it, or its newest entries once renamed. */
  lemma {:induction false} CompactionKeepsPending(d: Disk, max: nat, p: Progress)
    ensures Pending(Compacted(d, max, p)) == if p.BeforeRename? then Pending(d) else Newest(Pending(d), max)
    ensures |Pending(d)| <= max ==> Pending(Compacted(d, max, p)) == Pending(d)
    ensures !p.BeforeRename? ==> Compacted(d, max, p).records.tail.Clean?
  {
    var kept := Newest(Pending(d), max);
    NewestAreUnsent(d, max);
    WholeLinesPend(kept, d.sent);
    WholeLinesPend(kept, NONE_SENT);
    hide Pending, Keep;
  }

  /* ---------- appends ---------- */

  lemma {:induction false} AddIsPending(d: Disk, r: Record)
    requires d.records.tail.Clean? && r.id !in ReadSent(d.sent)
    ensures Pending(d.(records := AppendRecord(d.records, r))) == Pending(d) + [r]
    ensures AppendRecord(d.records, r).tail.Clean?
  {
    var ls := d.records.lines;
    assert (ls + [Good(r)])[..|ls|] == ls;
    KeepConcat(OfLines(ls), [r], Unsent(ReadSent(d.sent)));
    assert ReadAll(d.records) == OfLines(ls);
    assert ReadAll(AppendRecord(d.records, r)) == OfLines(ls) + [r];
    assert Keep([r], Unsent(ReadSent(d.sent))) == [r];
  }

  function Added(d: Disk, rs: seq<Record>): Disk
  {
    if |rs| == 0 then d else var e := Added(d, rs[..|rs| - 1]); e.(records := AppendRecord(e.records, rs[|rs| - 1]))
  }

  lemma {:induction false} AddedOne(d: Disk, front: seq<Record>, last: Record)
    ensures Added(d, front + [last]) == Added(d, front).(records := AppendRecord(Added(d, front).records, last))
  {
    assert (front + [last])[..|front|] == front;
  }

  lemma {:induction false} AllAddedArePending(d: Disk, rs: seq<Record>)
    requires d.records.tail.Clean? && forall i :: 0 <= i < |rs| ==> rs[i].id !in ReadSent(d.sent)
    ensures Pending(Added(d, rs)) == Pending(d) + rs && Added(d, rs).records.tail.Clean? && Added(d, rs).sent == d.sent
  {
    if |rs| > 0 {
      var front, last := rs[..|rs| - 1], rs[|rs| - 1];
      assert rs == front + [last];
      AddedOne(d, front, last);
      hide Pending, AppendRecord, ReadSent, Added;
      AllAddedArePending(d, front);
      AddIsPending(Added(d, front), last);
      ConcatAssociates(Pending(d), front, [last]);
    }
  }

  /** An append torn by a crash shows nothing, or its own record, and leaves the rest alone. */
  lemma {:induction false} TornShowsAtMostItself(d: Disk, r: Record, cut: Cut)
    requires d.records.tail.Clean? && r.id !in ReadSent(d.sent)
    ensures Pending(d.(records := TearRecord(d.records, r, cut))) in {Pending(d), Pending(d) + [r]}
  {
    var ls := d.records.lines;
    KeepConcat(OfLines(ls), [r], Unsent(ReadSent(d.sent)));
    assert Keep([r], Unsent(ReadSent(d.sent))) == [r];
    assert OfLines(ls) + [] == OfLines(ls);
  }

  /**
    After a torn append the next record is glued to it, so both are lost, and no other ever is: every
    record appended later is pending. (A cut that left nothing on disk loses its own record only.)
    */
  lemma {:induction false} TornLosesTwo(d: Disk, torn: Record, cut: Cut, next: Record, rest: seq<Record>)
    requires d.records.tail.Clean?
    requires torn.id !in ReadSent(d.sent) && next.id !in ReadSent(d.sent)
    requires forall i :: 0 <= i < |rest| ==> rest[i].id !in ReadSent(d.sent)
    ensures Pending(Added(d.(records := TearRecord(d.records, torn, cut)), [next] + rest)) ==
            Pending(d) + (if cut.Nothing? then [next] + rest else rest)
  {
    var e := d.(records := TearRecord(d.records, torn, cut));
    if cut.Nothing? {
      AllAddedArePending(d, [next] + rest);
    } else {
      var glued := e.(records := AppendRecord(e.records, next));
      assert glued.records.lines[..|d.records.lines|] == d.records.lines;
      assert OfLines(d.records.lines) + [] == OfLines(d.records.lines);
      assert ReadAll(glued.records) == ReadAll(d.records);
      AllAddedArePending(glued, rest);
      AddedAgain(e, next, rest);
    }
  }

  lemma {:induction false} AddedAgain(d: Disk, next: Record, rest: seq<Record>)
    ensures Added(d, [next] + rest) == Added(d.(records := AppendRecord(d.records, next)), rest)
  {
    var all := [next] + rest;
    if |rest| == 0 {
      assert all[..0] == [];
    } else {
      assert all[..|all| - 1] == [next] + rest[..|rest| - 1];
      AddedAgain(d, next, rest[..|rest| - 1]);
    }
  }

  /** A compaction in between saves the next record: it rewrites the file with whole lines only. */
  lemma {:induction false} CompactionMendsTheTear(d: Disk, torn: Record, cut: Cut, max: nat, next: Record)
    requires d.records.tail.Clean? && torn.id !in ReadSent(d.sent) && next.id !in ReadSent(d.sent)
    ensures var e := Compacted(d.(records := TearRecord(d.records, torn, cut)), max, Finished);
            Pending(e.(records := AppendRecord(e.records, next))) in
              {Newest(Pending(d), max) + [next], Newest(Pending(d) + [torn], max) + [next]}
  {
    var e := d.(records := TearRecord(d.records, torn, cut));
    TornShowsAtMostItself(d, torn, cut);
    CompactionKeepsPending(e, max, Finished);
    AddIsPending(Compacted(e, max, Finished), next);
  }

  /* ---------- marking ---------- */

  /** A finished mark removes exactly the marked records, and keeps the order of the rest. */
  lemma {:induction false} MarkRemoves(d: Disk, ids: seq<Id>)
    requires !d.sent.loose
    ensures Pending(d.(sent := AppendSent(d.sent, ids))) == Keep(Pending(d), Unsent(set i | i in ids))
    ensures !AppendSent(d.sent, ids).loose
  {
    var before, after := ReadSent(d.sent), ReadSent(AppendSent(d.sent, ids));
    assert after == before + set i | i in ids;
    KeepTwice(ReadAll(d.records), Unsent(before), Unsent(set i | i in ids), Unsent(after));
  }

  function SetOf(ids: seq<Id>): set<Id> { set i | i in ids }

  /**
    What a mark is read back as: all its identifiers, if finished at a line end; torn, those written and the one
    that lacks only its line end; and after a torn mark the first identifier is lost with the one it is glued to.
    */
  lemma {:induction false} MarksReadBack(f: SentFile, ids: seq<Id>, n: nat, cut: Cut)
    requires n < |ids|
    ensures ReadSent(AppendSent(f, ids)) == f.ids + SetOf(if f.loose then ids[1..] else ids)
    ensures cut == Nothing && n == 0 ==> ReadSent(TearSent(f, ids, n, cut)) == ReadSent(f)
    ensures cut != Nothing || n > 0 ==>
              ReadSent(TearSent(f, ids, n, cut)) ==
              f.ids + SetOf(if f.loose && n > 0 then ids[1..n] else ids[..n])
              + (if cut == AllButNewline && (n > 0 || !f.loose) then {ids[n]} else {})
  {}

  /** A torn or glued mark can only leave records pending that were sent: they are sent again, none is lost. */
  lemma {:induction false} TornMarkLosesNothing(d: Disk, ids: seq<Id>, n: nat, cut: Cut, r: Record)
    requires n < |ids| && r in Pending(d) && r.id !in ids
    ensures r in Pending(d.(sent := TearSent(d.sent, ids, n, cut)))
    ensures r in Pending(d.(sent := AppendSent(d.sent, ids)))
    ensures forall q :: q in Pending(d.(sent := TearSent(d.sent, ids, n, cut))) && !d.sent.loose ==> q in Pending(d)
  {
    TornIsBetween(d.sent, ids, n, cut);
    PendingIsUnsent(d, d.sent);
    PendingIsUnsent(d, TearSent(d.sent, ids, n, cut));
    PendingIsUnsent(d, AppendSent(d.sent, ids));
    hide Pending, ReadSent, TearSent, AppendSent;
  }

  /** What is pending, element by element. */
  lemma {:induction false} PendingIsUnsent(d: Disk, sent: SentFile)
    ensures forall r :: r in Pending(d.(sent := sent)) <==> r in ReadAll(d.records) && r.id !in ReadSent(sent)
  {
    forall r ensures r in Pending(d.(sent := sent)) <==> r in ReadAll(d.records) && r.id !in ReadSent(sent) {
      assert Unsent(ReadSent(sent))(r) <==> r.id !in ReadSent(sent);
    }
  }

  /** A cut mark adds some of its identifiers, and takes away at most the one it was glued to. */
  lemma {:induction false} TornIsBetween(f: SentFile, ids: seq<Id>, n: nat, cut: Cut)
    requires n < |ids|
    ensures forall id :: id in ReadSent(TearSent(f, ids, n, cut)) ==> id in ReadSent(f) || id in ids
    ensures forall id :: id in ReadSent(AppendSent(f, ids)) ==> id in ReadSent(f) || id in ids
    ensures !f.loose ==> forall id :: id in ReadSent(f) ==> id in ReadSent(TearSent(f, ids, n, cut))
  {}

  /* ---------- whole runs ---------- */

  /** Writes, finished or cut short by a crash. A torn mark stops within its list of identifiers. */
  datatype Op =
    | Add(record: Record)
    | TornAdd(record: Record, cut: Cut)
    | Mark(ids: seq<Id>)
    | TornMark(ids: seq<Id>, whole: nat, cut: Cut)
    | Compact(progress: Progress)

  function Do(d: Disk, op: Op, max: nat): Disk
  {
    match op
    case Add(r) => d.(records := AppendRecord(d.records, r))
    case TornAdd(r, cut) => d.(records := TearRecord(d.records, r, cut))
    case Mark(ids) => d.(sent := AppendSent(d.sent, ids))
    case TornMark(ids, n, cut) => if n < |ids| then d.(sent := TearSent(d.sent, ids, n, cut)) else d
    case Compact(p) => Compacted(d, max, p)
  }

  function DoAll(ops: seq<Op>, max: nat): Disk
  {
    if |ops| == 0 then Disk(NO_RECORDS, NONE_SENT) else Do(DoAll(ops[..|ops| - 1], max), ops[|ops| - 1], max)
  }

  /* ---------- refinement of a plain queue, while no write is torn ---------- */

  predicate Torn(op: Op) { op.TornAdd? || op.TornMark? }

  /** The same on a plain queue. */
  function Ideal(q: seq<Record>, op: Op, max: nat): seq<Record>
  {
    match op
    case Add(r) => q + [r]
    case Mark(ids) => Keep(q, Unsent(set i | i in ids))
    case Compact(p) => if p.BeforeRename? then q else Newest(q, max)
    case _ => q
  }

  function IdealAll(ops: seq<Op>, max: nat): seq<Record>
  {
    if |ops| == 0 then [] else Ideal(IdealAll(ops[..|ops| - 1], max), ops[|ops| - 1], max)
  }

  /** Identifiers are new: none is added after it was marked. */
  ghost predicate NewIds(ops: seq<Op>)
  {
    forall i, k :: 0 <= i < k < |ops| && ops[i].Mark? && ops[k].Add? ==> ops[k].record.id !in ops[i].ids
  }

  /**
    Whatever is added, marked and compacted, and wherever compactions are cut off, what the two files
    say is pending is the plain queue: what was added, minus what was sent, in order.
    */
  lemma {:induction false} FilesAreAQueue(ops: seq<Op>, max: nat)
    requires NewIds(ops) && forall i :: 0 <= i < |ops| ==> !Torn(ops[i])
    ensures Pending(DoAll(ops, max)) == IdealAll(ops, max)
    ensures DoAll(ops, max).records.tail.Clean? && !DoAll(ops, max).sent.loose
    ensures forall id :: id in ReadSent(DoAll(ops, max).sent) ==> WasMarked(ops, id)
  {
    if |ops| > 0 {
      var front, op := ops[..|ops| - 1], ops[|ops| - 1];
      FilesAreAQueue(front, max);
      var d := DoAll(front, max);
      hide Pending, ReadSent, AppendSent, AppendRecord, Compacted, IdealAll;
      assert forall id :: WasMarked(front, id) ==> WasMarked(ops, id) by {
        forall id | WasMarked(front, id) ensures WasMarked(ops, id) {
          var i :| 0 <= i < |front| && front[i].Mark? && id in front[i].ids;
          assert ops[i] == front[i];
        }
      }
      if op.Add? {
        NotYetMarked(ops, op.record);
        AddIsPending(d, op.record);
      } else if op.Mark? {
        MarkRemoves(d, op.ids);
        MarkedIds(d.sent, op.ids);
        assert ops[|ops| - 1].Mark?;
      } else {
        assert !Torn(ops[|ops| - 1]);
        CompactionKeepsPending(d, max, op.progress);
        CompactedSent(d, max, op.progress);
      }
      StepIdeal(ops, max);
    }
  }

  lemma {:induction false} StepIdeal(ops: seq<Op>, max: nat)
    requires |ops| > 0
    ensures IdealAll(ops, max) == Ideal(IdealAll(ops[..|ops| - 1], max), ops[|ops| - 1], max)
  {}

  lemma {:induction false} MarkedIds(f: SentFile, ids: seq<Id>)
    ensures forall id :: id in ReadSent(AppendSent(f, ids)) ==> id in ReadSent(f) || id in ids
  {}

  lemma {:induction false} CompactedSent(d: Disk, max: nat, p: Progress)
    ensures forall id :: id in ReadSent(Compacted(d, max, p).sent) ==> id in ReadSent(d.sent)
    ensures !d.sent.loose ==> !Compacted(d, max, p).sent.loose
    ensures d.records.tail.Clean? ==> Compacted(d, max, p).records.tail.Clean?
  {}

  ghost predicate WasMarked(ops: seq<Op>, id: Id) { exists i :: 0 <= i < |ops| && ops[i].Mark? && id in ops[i].ids }

  lemma {:induction false} NotYetMarked(ops: seq<Op>, r: Record)
    requires NewIds(ops) && |ops| > 0 && ops[|ops| - 1] == Add(r)
    ensures !WasMarked(ops[..|ops| - 1], r.id)
  {}

  /* ---------- the object ---------- */

  class ImpressionQueue {
    const compactAfter: nat
    const maxEntries: nat
    var disk: Disk
    var appendCount: nat

    constructor (disk: Disk, compactAfter: nat, maxEntries: nat)
      ensures this.disk == disk && this.compactAfter == compactAfter && this.maxEntries == maxEntries && appendCount == 0
    {
      this.disk, this.compactAfter, this.maxEntries, appendCount := disk, compactAfter, maxEntries, 0;
    }

    /** `add`: an append that fails, having reached the disk in part or not at all, is not counted; every so often the files are compacted. */
    method Enqueue(r: Record, fault: Option<Cut>)
      modifies this
      ensures fault.Some? ==> disk == Do(old(disk), TornAdd(r, fault.value), maxEntries) && appendCount == old(appendCount)
      ensures fault.None? ==>
                var d := Do(old(disk), Add(r), maxEntries);
                && disk == (if old(appendCount) + 1 >= compactAfter then Compacted(d, maxEntries, Finished) else d)
                && appendCount == (if old(appendCount) + 1 >= compactAfter then 0 else old(appendCount) + 1)
    {
      if fault.Some? {
        disk := disk.(records := TearRecord(disk.records, r, fault.value));
        return;
      }
      disk := disk.(records := AppendRecord(disk.records, r));
      appendCount := appendCount + 1;
      if appendCount >= compactAfter {
        appendCount := 0;
        CompactFiles();
      }
    }

    /** `pending` */
    method Waiting() returns (r: seq<Record>)
      ensures r == Pending(disk)
    {
      var sent := ReadSent(disk.sent);
      var all := ReadRecords();
      r := [];
      for i := 0 to |all|
        invariant r == Keep(all[..i], Unsent(sent))
      {
        assert all[..i + 1][..i] == all[..i];
        if all[i].id !in sent {
          r := r + [all[i]];
        }
      }
      assert all[..|all|] == all;
    }

    /** `#readAll` */
    method ReadRecords() returns (r: seq<Record>)
      ensures r == ReadAll(disk.records)
    {
      r := [];
      var lines := disk.records.lines;
      for i := 0 to |lines|
        invariant r == OfLines(lines[..i])
      {
        assert lines[..i + 1][..i] == lines[..i];
        if lines[i].Good? {
          r := r + [lines[i].record];
        }
      }
      assert lines[..|lines|] == lines;
      if disk.records.tail.Loose? && disk.records.tail.record.Some? {
        r := r + [disk.records.tail.record.value];
      }
    }

    /** `markSent`: a failing append may have reached the disk up to some identifier. */
    method MarkSent(ids: seq<Id>, fault: Option<(nat, Cut)>)
      modifies this`disk
      ensures disk == Do(old(disk), if fault.None? then Mark(ids) else TornMark(ids, fault.value.0, fault.value.1), maxEntries)
    {
      if |ids| > 0 {
        if fault.None? {
          disk := disk.(sent := AppendSent(disk.sent, ids));
        } else if fault.value.0 < |ids| {
          disk := disk.(sent := TearSent(disk.sent, ids, fault.value.0, fault.value.1));
        }
      }
    }

    /** `compact`: a temporary file, an atomic rename, then the marks go. */
    method CompactFiles()
      modifies this`disk
      ensures disk == Compacted(old(disk), maxEntries, Finished)
      ensures Pending(disk) == Newest(old(Pending(disk)), maxEntries)
    {
      CompactionKeepsPending(disk, maxEntries, Finished);
      hide Pending;
      var keep := Waiting();
      var trimmed := if |keep| > maxEntries && maxEntries > 0 then keep[|keep| - maxEntries..] else keep;
      var written: seq<Line> := [];
      for i := 0 to |trimmed|
        modifies {}
        invariant written == Lines(trimmed[..i])
      {
        written := written + [Good(trimmed[i])];
      }
      assert trimmed[..|trimmed|] == trimmed;
      disk := disk.(records := RecordFile(written, Clean));
      disk := disk.(sent := NONE_SENT);
    }
  }
}
