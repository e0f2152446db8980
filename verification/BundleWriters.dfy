/**
  The two writers of a result bundle (`results.py`): `ResultStreamWriter`, fed row by
  row, and `write_result`, given all the rows. At every point a step can raise, the user
  can interrupt the program, or the process can be killed; what is left on disk then is
  a function of the point, of who cleans up, and of the removals that fail.
*/
module BundleWriters {
  import opened Common
  import opened Shape
  import opened Bundle

  // -------------------------------------------------------------------------- faults

  /** Where a fault strikes: while a row is written, in the flush, while the metadata is
      built or written, or around the two renames. A rename that raises is a fault at the
      point before it. A file is only removed once it is noted as promoted. */
  datatype Point =
    | Row(index: nat, torn: string)
    | Flush
    | WriteMeta(partial: Option<Meta>)
    | RenameData
    | DataRenamed
    | RenameMeta
    | MetaRenamed
    | BothNoted
    // the stream writer is marked as finished, the receipt is being made
    | Receipt

  /** An `Exception`, a `KeyboardInterrupt`, which is none, or the end of the process. */
  datatype Kind = Raise | Interrupt | Kill

  datatype Fault = Fault(at: Point, kind: Kind)

  /** What else goes wrong afterwards: closing the data file raises, as on a full disk, or
      a removal of the clean-up fails, or is never reached because that is cut short. */
  datatype Stuck = Stuck(close: bool, dataTmp: bool, metaTmp: bool, data: bool, meta: bool)

  datatype End = Returned | Raised | Interrupted | Killed

  datatype Writer = Stream | Batch

  function Rank(at: Point): nat {
    match at
    case Row(_, _) => 0
    case Flush => 1
    case WriteMeta(_) => 2
    case RenameData => 3
    case DataRenamed => 4
    case RenameMeta => 5
    case MetaRenamed => 6
    case BothNoted => 7
    case Receipt => 8
  }

  predicate AllObjects(rows: seq<Json>) {
    forall i :: 0 <= i < |rows| ==> rows[i].Object?
  }

  function FirstBad(rows: seq<Json>): (n: nat)
    ensures n <= |rows| && AllObjects(rows[..n]) && (n < |rows| ==> !rows[n].Object?)
  {
    if rows == [] then 0
    else
      var last := |rows| - 1;
      var n := FirstBad(rows[..last]);
      assert n < last ==> rows[..last][n] == rows[n];
      assert rows[..last][..n] == rows[..n];
      if n < last || !rows[last].Object? then n else |rows|
  }

  /** The fault that ends the writing of these rows: the first row that is no object
      raises, unless the given fault strikes at a row before it. */
  function Hit(rows: seq<Json>, fault: Option<Fault>): Option<Fault> {
    var bad := FirstBad(rows);
    if fault.Some? && fault.value.at.Row? && fault.value.at.index < bad then fault
    else if bad < |rows| then Some(Fault(Row(bad, ""), Raise))
    else if fault.Some? && fault.value.at.Row? then None
    else fault
  }

  /** The data file is still open. */
  predicate IsOpen(at: Point) {
    at.Row? || at.Flush?
  }

  function EndOf(kind: Kind): End {
    match kind
    case Raise => Raised
    case Interrupt => Interrupted
    case Kill => Killed
  }

  /** How a writer ends; an error in closing the file takes the place of an interruption. */
  function Ending(hit: Option<Fault>, stuck: Stuck): End {
    if hit.None? then Returned
    else if hit.value.kind.Interrupt? && IsOpen(hit.value.at) && stuck.close then Raised
    else EndOf(hit.value.kind)
  }

  /** Who cleans up. `write_result` on an exception, also on one from closing the file. The
      stream writer on an exception, and its `with` block on an interruption unless the
      writer is finished; but `abort` closes the file before it removes anything, and only
      an exception in `finish` gives it a second chance. */
  predicate Cleans(writer: Writer, hit: Option<Fault>, stuck: Stuck) {
    && hit.Some?
    && match hit.value.kind
       case Raise => writer.Batch? || !(hit.value.at.Row? && stuck.close)
       case Interrupt =>
         if writer.Batch? then IsOpen(hit.value.at) && stuck.close
         else !hit.value.at.Receipt? && !(IsOpen(hit.value.at) && stuck.close)
       case Kill => false
  }

  // ------------------------------------------------------------- what is left on disk

  datatype Remains = Remains(dataTmp: bool, metaTmp: bool, data: bool, meta: bool)

  function Remaining(hit: Option<Fault>, cleans: bool, stuck: Stuck): Remains {
    match hit
    case None => Remains(false, false, true, true)
    case Some(fault) =>
      var rank := Rank(fault.at);
      Remains(
        rank <= 3 && (!cleans || stuck.dataTmp),
        (3 <= rank <= 5 || (fault.at.WriteMeta? && fault.at.partial.Some?)) && (!cleans || stuck.metaTmp),
        4 <= rank && (!cleans || rank < 5 || stuck.data),
        6 <= rank && (!cleans || rank < 7 || stuck.meta))
  }

  /** The final names as a reader finds them, at one moment. */
  datatype Snapshot = Snapshot(data: Option<string>, meta: Option<Meta>)

  /** Every state of the final names, one after another. */
  function Trail(hit: Option<Fault>, cleans: bool, stuck: Stuck, data: string, meta: Meta): seq<Snapshot> {
    var rank := if hit.Some? then Rank(hit.value.at) else 8;
    var kept := if stuck.data then Some(data) else None;
    (if 4 <= rank then [Snapshot(Some(data), None)] else [])
    + (if 6 <= rank then [Snapshot(Some(data), Some(meta))] else [])
    + (if cleans && 5 <= rank then [Snapshot(kept, if 6 <= rank then Some(meta) else None)] else [])
    + (if cleans && 7 <= rank then [Snapshot(kept, if stuck.meta then Some(meta) else None)] else [])
  }

  /** A reader never finds metadata without the data it binds. */
  ghost predicate CrashSafe(codec: Codec, history: seq<Snapshot>) {
    forall i :: 0 <= i < |history| && history[i].meta.Some? ==>
      history[i].data.Some? && codec.digest(history[i].data.value) == history[i].meta.value.digest
  }

  /** Both final files or neither: exactly if the fault strikes before the data file is
      renamed, or a clean-up follows that knows every renamed file and removes all or none
      of them, or nobody cleans up once both are renamed. Between the data file's rename
      and its note there is no way out, for either writer and every kind of fault. */
  lemma BothOrNeitherIff(writer: Writer, hit: Option<Fault>, stuck: Stuck)
    ensures var left, cleans := Remaining(hit, Cleans(writer, hit, stuck), stuck), Cleans(writer, hit, stuck);
            left.data == left.meta <==>
              || hit.None?
              || (match hit.value.at
                  case DataRenamed => false
                  case RenameMeta => cleans && !stuck.data
                  case MetaRenamed => !cleans || stuck.data
                  case BothNoted => !cleans || stuck.data == stuck.meta
                  case Receipt => !cleans || stuck.data == stuck.meta
                  case _ => true)
  {
  }

  /** What `write_result` documents: if a row, the flush, the metadata or either rename
      fails, every file of the attempt is removed, as far as the removals work. The stream
      writer keeps that except where a row fails and closing the file fails again: the
      removals are then never reached, and the temporary data file stays. */
  lemma FailureLeavesNothingIff(writer: Writer, fault: Fault, stuck: Stuck)
    requires fault.kind.Raise? && Rank(fault.at) in {0, 1, 2, 3, 5}
    requires !stuck.dataTmp && !stuck.metaTmp && !stuck.data && !stuck.meta
    ensures var left := Remaining(Some(fault), Cleans(writer, Some(fault), stuck), stuck);
            && (left == Remains(false, false, false, false) <==> !(writer.Stream? && fault.at.Row? && stuck.close))
            && (writer.Stream? && fault.at.Row? && stuck.close ==> left == Remains(true, false, false, false))
  {
  }

  /** Metadata is left without its data exactly if the clean-up removes the data file and
      the metadata is not noted yet, or cannot be removed. */
  lemma MetadataAloneIff(writer: Writer, hit: Option<Fault>, stuck: Stuck)
    ensures var left := Remaining(hit, Cleans(writer, hit, stuck), stuck);
            left.meta && !left.data <==>
              && hit.Some? && Cleans(writer, hit, stuck) && !stuck.data
              && (hit.value.at.MetaRenamed? || ((hit.value.at.BothNoted? || hit.value.at.Receipt?) && stuck.meta))
  {
  }

  /** A reader never finds metadata without its data at any moment, exactly unless a
      clean-up removes the data file after the metadata got its final name. */
  lemma NeverBareIff(codec: Codec, run: Run, rows: seq<Json>, meta: Meta, writer: Writer, hit: Option<Fault>, stuck: Stuck)
    requires Binds(codec, run, meta, rows)
    ensures CrashSafe(codec, Trail(hit, Cleans(writer, hit, stuck), stuck, DataOf(codec, rows), meta)) <==>
              !(Cleans(writer, hit, stuck) && Rank(hit.value.at) >= Rank(MetaRenamed) && !stuck.data)
  {
    hide DataOf, IsLargest, Describes;
    var trail := Trail(hit, Cleans(writer, hit, stuck), stuck, DataOf(codec, rows), meta);
    if Cleans(writer, hit, stuck) && Rank(hit.value.at) >= 6 && !stuck.data {
      assert trail[2] == Snapshot(None, Some(meta));
    }
  }

  /** The interruptions on which the two writers leave different files under the final
      names: the `with` block removes a file that `write_result` leaves. */
  predicate Parts(hit: Option<Fault>, stuck: Stuck) {
    && hit.Some? && hit.value.kind.Interrupt?
    && (if hit.value.at.BothNoted? then !stuck.data || !stuck.meta
        else (hit.value.at.RenameMeta? || hit.value.at.MetaRenamed?) && !stuck.data)
  }

  // --------------------------------------------------------------------------- files

  /** The four files of one run ID. No other bundle has them. */
  class Files {
    var dataTmp: Option<string>
    var metaTmp: Option<Meta>
    var data: Option<string>
    var meta: Option<Meta>
    ghost var history: seq<Snapshot>

    ghost predicate Absent()
      reads this
    {
      dataTmp.None? && metaTmp.None? && data.None? && meta.None? && history == []
    }

    constructor ()
      ensures Absent()
    {
      dataTmp, metaTmp, data, meta, history := None, None, None, None, [];
    }

    /** The files stand as `Remaining` says, with the contents they were given. */
    ghost predicate Stand(hit: Option<Fault>, cleans: bool, stuck: Stuck, text: string, bound: Meta)
      reads this
    {
      var left := Remaining(hit, cleans, stuck);
      && (dataTmp.Some? <==> left.dataTmp)
      && (metaTmp.Some? <==> left.metaTmp)
      && data == (if left.data then Some(text) else None)
      && meta == (if left.meta then Some(bound) else None)
      && history == Trail(hit, cleans, stuck, text, bound)
    }

    /** From the flush to the second note, up to the fault. `promoted` is the number of
        files noted, the data file first. */
    method Publish(bound: Meta, fault: Option<Fault>, ghost stuck: Stuck) returns (promoted: nat)
      requires dataTmp.Some? && metaTmp.None? && data.None? && meta.None? && history == []
      requires fault.Some? ==> !fault.value.at.Row?
      modifies this
      ensures Stand(fault, false, stuck, old(dataTmp.value), bound)
      ensures promoted == Noted(fault)
    {
      if fault.Some? && fault.value.at.Flush? {
        return 0;
      }
      if fault.Some? && fault.value.at.WriteMeta? {
        metaTmp := fault.value.at.partial;
        return 0;
      }
      metaTmp := Some(bound);
      if fault.Some? && fault.value.at.RenameData? {
        return 0;
      }
      data, dataTmp := dataTmp, None;
      history := [Snapshot(data, None)];
      if fault.Some? && fault.value.at.DataRenamed? {
        return 0;
      }
      if fault.Some? && fault.value.at.RenameMeta? {
        return 1;
      }
      meta, metaTmp := metaTmp, None;
      history := history + [Snapshot(data, meta)];
      if fault.Some? && fault.value.at.MetaRenamed? {
        return 1;
      }
      return 2;
    }

    /** Remove the temporary files and what was noted as promoted, ignoring failures. */
    method CleanUp(promoted: nat, stuck: Stuck)
      modifies this
      ensures dataTmp == (if stuck.dataTmp then old(dataTmp) else None)
      ensures metaTmp == (if stuck.metaTmp then old(metaTmp) else None)
      ensures data == (if promoted >= 1 && !stuck.data then None else old(data))
      ensures meta == (if promoted >= 2 && !stuck.meta then None else old(meta))
      ensures history == old(history) + (if promoted >= 1 then [Snapshot(data, old(meta))] else [])
                                      + (if promoted >= 2 then [Snapshot(data, meta)] else [])
    {
      dataTmp := if stuck.dataTmp then dataTmp else None;
      metaTmp := if stuck.metaTmp then metaTmp else None;
      if promoted >= 1 {
        data := if stuck.data then data else None;
        history := history + [Snapshot(data, meta)];
      }
      if promoted >= 2 {
        meta := if stuck.meta then meta else None;
        history := history + [Snapshot(data, meta)];
      }
    }
  }

  function Noted(hit: Option<Fault>): nat {
    if hit.None? then 2
    else if Rank(hit.value.at) >= 7 then 2
    else if Rank(hit.value.at) >= 5 then 1
    else 0
  }

  /** The outcome of a writer: how it ends, and the files as they stand, the data file and
      the metadata being those of the rows. */
  ghost predicate Outcome(codec: Codec, run: Run, files: Files, rows: seq<Json>, hit: Option<Fault>, cleans: bool,
                          stuck: Stuck, end: End, bound: Meta)
    reads files
  {
    && end == Ending(hit, stuck)
    && files.Stand(hit, cleans, stuck, DataOf(codec, rows), bound)
    && ((hit.Some? ==> !hit.value.at.Row?) ==> AllObjects(rows) && Binds(codec, run, bound, rows))
  }

  datatype RowAnswer = Counted | Finalized | NotAnObject | WriteFailed

  class ResultStreamWriter {
    const codec: Codec
    const limits: Limits
    const run: Run
    const files: Files
    const index: ShapeIndex
    var previews: seq<Preview>
    var rowCount: nat
    var maxBytes: nat
    var hashed: string
    var finished: bool
    // whether the handle of the data file is closed
    var closed: bool
    // the files noted as promoted, the data file first
    var promoted: nat
    // the rows accepted so far, and whether a write has failed half-way
    ghost var rows: seq<Json>
    ghost var broken: bool

    ghost predicate Described()
      reads this, index
    {
      && previews == PreviewsOf(codec, limits, rows) && rowCount == |rows|
      && IsLargest(codec, rows, maxBytes) && hashed == DataOf(codec, rows)
      && Describes(index.shape, rows)
    }

    ghost predicate Valid()
      reads this, index, files
    {
      && AllObjects(rows)
      && (!finished ==> !closed && promoted == 0 && files.history == [])
      && (!finished ==> files.data.None? && files.meta.None? && files.metaTmp.None?)
      && (!finished ==> files.dataTmp.Some?)
      && (!finished && !broken ==> Described() && files.dataTmp == Some(DataOf(codec, rows)))
    }

    constructor (codec: Codec, limits: Limits, run: Run, files: Files)
      requires files.Absent()
      modifies files
      ensures Valid() && rows == [] && !finished && !broken && fresh(index)
      ensures this.codec == codec && this.limits == limits && this.run == run && this.files == files
    {
      this.codec, this.limits, this.run, this.files := codec, limits, run, files;
      previews, rowCount, maxBytes, hashed, finished, closed, promoted, rows, broken := [], 0, 0, "", false, false, 0, [], false;
      index := new ShapeIndex();
      new;
      files.dataTmp := Some("");
    }

    /** `write_row`. */
    method WriteRow(row: Json, torn: Option<string>) returns (answer: RowAnswer)
      requires Valid() && !broken
      modifies this, index, files`dataTmp
      ensures Valid() && finished == old(finished)
      ensures answer == (if finished then Finalized else if !row.Object? then NotAnObject
                         else if torn.Some? then WriteFailed else Counted)
      ensures rows == if answer.Counted? then old(rows) + [row] else old(rows)
      ensures broken <==> answer.WriteFailed?
    {
      hide PreviewsOf, IsLargest, DataOf, Describes, PreviewOf;
      if finished {
        return Finalized;
      }
      if !row.Object? {
        return NotAnObject;
      }
      var line := codec.encode(row);
      var size := codec.size(line);
      if torn.Some? {
        files.dataTmp := Some(hashed + torn.value);
        broken := true;
        return WriteFailed;
      }
      RowAdds(codec, limits, rows, row, maxBytes);
      files.dataTmp := Some(files.dataTmp.value + line + "\n");
      hashed := hashed + line + "\n";
      rowCount := rowCount + 1;
      maxBytes := Max(maxBytes, size);
      index.Update(row, rows);
      if |previews| < limits.previewRows {
        if size <= limits.previewCap {
          previews := previews + [Shown(row)];
        } else {
          previews := previews + [Omitted(rowCount, size)];
        }
      }
      rows := rows + [row];
      return Counted;
    }

    /** `finish`: an exception aborts, at whatever point, as far as the file can be closed;
        an interruption passes by. */
    method Finish(fault: Option<Fault>, stuck: Stuck) returns (end: End, ghost bound: Meta)
      requires Valid() && !finished && !broken && (fault.Some? ==> !fault.value.at.Row?)
      modifies this, files
      ensures rows == old(rows) && previews == old(previews)
      ensures end == if fault.None? then Returned else EndOf(fault.value.kind)
      ensures AllObjects(rows) && Binds(codec, run, bound, rows)
      ensures files.Stand(fault, Aborts(fault, stuck), stuck, DataOf(codec, rows), bound)
      ensures finished <==> fault.None? || fault.value.at.Receipt? || Aborts(fault, stuck)
      ensures closed <==> !(fault.Some? && fault.value.at.Flush? && !fault.value.kind.Raise?)
      ensures promoted == Noted(fault)
    {
      hide PreviewsOf, IsLargest, DataOf, Describes, PreviewOf, Files.Stand;
      var meta := Meta(run.id, DataPath(run), MetaPath(run), rowCount, index.shape, maxBytes, codec.digest(hashed));
      bound := meta;
      promoted := files.Publish(meta, fault, stuck);
      closed := !(fault.Some? && fault.value.at.Flush?);
      finished := fault.None? || fault.value.at.Receipt?;
      if fault.Some? && fault.value.kind.Raise? {
        var _ := Abort(stuck, fault, DataOf(codec, rows), bound);
      }
      end := if fault.None? then Returned else EndOf(fault.value.kind);
    }

    /** `__exit__` after `finish`: `raised` is an error of its own. */
    method Exit(stuck: Stuck, ghost fault: Option<Fault>, ghost bound: Meta) returns (raised: bool)
      requires fault.Some? ==> !fault.value.at.Row? && !fault.value.kind.Kill?
      requires files.Stand(fault, Aborts(fault, stuck), stuck, DataOf(codec, rows), bound)
      requires finished <==> fault.None? || fault.value.at.Receipt? || Aborts(fault, stuck)
      requires closed <==> !(fault.Some? && fault.value.at.Flush? && !fault.value.kind.Raise?)
      requires promoted == Noted(fault)
      modifies this`finished, this`closed, files
      ensures files.Stand(fault, Cleans(Stream, fault, stuck), stuck, DataOf(codec, rows), bound)
      ensures raised <==> fault.Some? && fault.value.kind.Interrupt? && fault.value.at.Flush? && stuck.close
    {
      hide DataOf, Files.Stand;
      raised := false;
      if !finished {
        var aborted := Abort(stuck, fault, DataOf(codec, rows), bound);
        raised := !aborted;
      }
    }

    /** `abort`: closes the file first, which can raise; then it removes nothing. */
    method Abort(stuck: Stuck, ghost fault: Option<Fault>, ghost text: string, ghost bound: Meta) returns (aborted: bool)
      modifies this`finished, this`closed, files
      ensures closed && aborted == !(!old(closed) && stuck.close)
      ensures !aborted ==> finished == old(finished) && unchanged(files)
      ensures aborted ==>
        && finished
        && files.dataTmp == (if stuck.dataTmp then old(files.dataTmp) else None)
        && files.metaTmp == (if stuck.metaTmp then old(files.metaTmp) else None)
        && files.data == (if promoted >= 1 && !stuck.data then None else old(files.data))
        && files.meta == (if promoted >= 2 && !stuck.meta then None else old(files.meta))
        && files.history == old(files.history) + (if promoted >= 1 then [Snapshot(files.data, old(files.meta))] else [])
                                               + (if promoted >= 2 then [Snapshot(files.data, files.meta)] else [])
      ensures aborted && fault.Some? && promoted == Noted(fault) && old(files.Stand(fault, false, stuck, text, bound)) ==>
        files.Stand(fault, true, stuck, text, bound)
    {
      hide Remaining, Trail;
      if !closed {
        closed := true;
        if stuck.close {
          return false;
        }
      }
      if fault.Some? {
        CleanedIs(fault.value, stuck, text, bound);
      }
      files.CleanUp(promoted, stuck);
      finished := true;
      return true;
    }
  }

  /** `finish` aborts and gets to the removals. */
  predicate Aborts(fault: Option<Fault>, stuck: Stuck) {
    fault.Some? && fault.value.kind.Raise? && !(fault.value.at.Flush? && stuck.close)
  }

  /** What the fault at row `i`, or the row itself, comes to. */
  lemma HitAt(rows: seq<Json>, fault: Option<Fault>, i: nat)
    requires i < |rows| && i <= FirstBad(rows) && (RowFault(fault) ==> fault.value.at.index >= i)
    ensures !rows[i].Object? ==> Hit(rows, fault) == Some(Fault(Row(i, ""), Raise))
    ensures rows[i].Object? ==> i + 1 <= FirstBad(rows)
    ensures rows[i].Object? && RowFault(fault) && fault.value.at.index == i ==> Hit(rows, fault) == fault
  {
    var bad := FirstBad(rows);
    if i < bad {
      assert rows[..bad][i] == rows[i];
    }
  }

  lemma HitLater(rows: seq<Json>, fault: Option<Fault>)
    requires |rows| <= FirstBad(rows) && (RowFault(fault) ==> fault.value.at.index >= |rows|)
    ensures Hit(rows, fault) == if RowFault(fault) then None else fault
  {
  }

  /** While rows are written there is the temporary data file at most. */
  lemma RowLeaves(files: Files, hit: Option<Fault>, cleans: bool, stuck: Stuck, text: string, bound: Meta)
    requires RowFault(hit)
    requires files.data.None? && files.meta.None? && files.metaTmp.None? && files.history == []
    requires files.dataTmp.Some? <==> !cleans || stuck.dataTmp
    ensures files.Stand(hit, cleans, stuck, text, bound)
  {
  }

  /** What a clean-up changes, wherever the fault strikes. */
  lemma CleanedIs(fault: Fault, stuck: Stuck, text: string, bound: Meta)
    ensures var hit, promoted := Some(fault), Noted(Some(fault));
            var before, after := Remaining(hit, false, stuck), Remaining(hit, true, stuck);
            && after.dataTmp == (before.dataTmp && stuck.dataTmp)
            && after.metaTmp == (before.metaTmp && stuck.metaTmp)
            && after.data == (before.data && !(promoted >= 1 && !stuck.data))
            && after.meta == (before.meta && !(promoted >= 2 && !stuck.meta))
            && Trail(hit, true, stuck, text, bound) ==
                 Trail(hit, false, stuck, text, bound)
                 + (if promoted >= 1 then [Snapshot(if after.data then Some(text) else None,
                                                    if before.meta then Some(bound) else None)] else [])
                 + (if promoted >= 2 then [Snapshot(if after.data then Some(text) else None,
                                                    if after.meta then Some(bound) else None)] else [])
  {
  }

  /** A caller's `with` block: every row, then `finish`. Whatever leaves the block while
      the writer is unfinished aborts it, but for a kill. */
  method StreamResult(codec: Codec, limits: Limits, run: Run, files: Files, rows: seq<Json>, fault: Option<Fault>,
                      stuck: Stuck)
    returns (end: End, previews: seq<Preview>, ghost bound: Meta)
    requires files.Absent()
    modifies files
    ensures var hit := Hit(rows, fault);
            Outcome(codec, run, files, rows, hit, Cleans(Stream, hit, stuck), stuck, end, bound)
    ensures end.Returned? ==> previews == PreviewsOf(codec, limits, rows)
  {
    hide PreviewsOf, IsLargest, DataOf, Describes, PreviewOf, FirstBad, Hit, Remaining, Trail, Binds;
    bound := Meta(run.id, DataPath(run), MetaPath(run), 0, map[], 0, "");
    var writer := new ResultStreamWriter(codec, limits, run, files);
    for i := 0 to |rows|
      invariant writer.Valid() && !writer.finished && !writer.broken && writer.rows == rows[..i]
      invariant writer.codec == codec && writer.limits == limits && writer.run == run && writer.files == files
      invariant fresh(writer) && fresh(writer.index)
      invariant i <= FirstBad(rows) && (RowFault(fault) ==> fault.value.at.index >= i)
    {
      HitAt(rows, fault, i);
      var torn := if RowFault(fault) && fault.value.at.index == i then Some(fault.value.at.torn) else None;
      var answer := writer.WriteRow(rows[i], torn);
      if !answer.Counted? {
        end := if answer.WriteFailed? then EndOf(fault.value.kind) else Raised;
        var aborted := false;
        if !end.Killed? {
          aborted := writer.Abort(stuck, None, "", bound);
          end := if aborted then end else Raised;
        }
        RowLeaves(files, Hit(rows, fault), aborted, stuck, DataOf(codec, rows), bound);
        return end, [], bound;
      }
    }
    assert rows[..|rows|] == rows;
    HitLater(rows, fault);
    var strikes := if RowFault(fault) then None else fault;
    end, bound := writer.Finish(strikes, stuck);
    if !end.Killed? {
      var raised := writer.Exit(stuck, strikes, bound);
      end := if raised then Raised else end;
    }
    return end, writer.previews, bound;
  }

  predicate RowFault(fault: Option<Fault>) {
    fault.Some? && fault.value.at.Row?
  }

  /** What one more row does to everything a bundle is made of. */
  lemma RowAdds(codec: Codec, limits: Limits, rows: seq<Json>, row: Json, largest: nat)
    requires IsLargest(codec, rows, largest)
    ensures var line := codec.encode(row);
            var before, after := PreviewsOf(codec, limits, rows), PreviewsOf(codec, limits, rows + [row]);
            && DataOf(codec, rows + [row]) == DataOf(codec, rows) + line + "\n"
            && IsLargest(codec, rows + [row], Max(largest, codec.size(line)))
            && after == if |before| >= limits.previewRows then before
                        else if codec.size(line) <= limits.previewCap then before + [Shown(row)]
                        else before + [Omitted(|rows| + 1, codec.size(line))]
  {
    DataAppends(codec, rows, row);
    LargestAppends(codec, rows, largest, row);
    PreviewsAppend(codec, limits, rows, row);
  }

  /** An exception arrives at the handler of `write_result`: the fault's own, or one from
      closing the file on the way. */
  predicate Excepts(fault: Fault, stuck: Stuck) {
    fault.kind.Raise? || (fault.kind.Interrupt? && IsOpen(fault.at) && stuck.close)
  }

  /** `write_result`: the same bundle from all the rows at once. */
  method WriteResult(codec: Codec, limits: Limits, run: Run, files: Files, rows: seq<Json>, fault: Option<Fault>,
                     stuck: Stuck)
    returns (end: End, previews: seq<Preview>, ghost bound: Meta)
    requires files.Absent()
    modifies files
    ensures var hit := Hit(rows, fault);
            Outcome(codec, run, files, rows, hit, Cleans(Batch, hit, stuck), stuck, end, bound)
    ensures end.Returned? ==> previews == PreviewsOf(codec, limits, rows)
  {
    hide PreviewsOf, IsLargest, DataOf, Describes, PreviewOf, FirstBad, Hit, Remaining, Trail;
    Nothing(codec, limits);
    bound := Meta(run.id, DataPath(run), MetaPath(run), 0, map[], 0, "");
    var shape := new ShapeIndex();
    var rowCount: nat, maxBytes: nat, hasher := 0, 0, "";
    previews := [];
    files.dataTmp := Some("");
    for i := 0 to |rows|
      invariant files.data.None? && files.meta.None? && files.metaTmp.None? && files.history == []
      invariant files.dataTmp == Some(hasher) && fresh(shape)
      invariant previews == PreviewsOf(codec, limits, rows[..i]) && rowCount == i
      invariant IsLargest(codec, rows[..i], maxBytes) && hasher == DataOf(codec, rows[..i])
      invariant Describes(shape.shape, rows[..i]) && AllObjects(rows[..i])
      invariant i <= FirstBad(rows) && (RowFault(fault) ==> fault.value.at.index >= i)
    {
      var row := rows[i];
      HitAt(rows, fault, i);
      if !row.Object? {
        files.CleanUp(0, stuck);
        RowLeaves(files, Hit(rows, fault), true, stuck, DataOf(codec, rows), bound);
        return Raised, [], bound;
      }
      var line := codec.encode(row);
      var size := codec.size(line);
      if RowFault(fault) && fault.value.at.index == i {
        files.dataTmp := Some(hasher + fault.value.at.torn);
        var cleans := Excepts(fault.value, stuck);
        if cleans {
          files.CleanUp(0, stuck);
        }
        RowLeaves(files, fault, cleans, stuck, DataOf(codec, rows), bound);
        return if cleans then Raised else EndOf(fault.value.kind), [], bound;
      }
      assert rows[..i + 1] == rows[..i] + [row];
      RowAdds(codec, limits, rows[..i], row, maxBytes);
      files.dataTmp := Some(files.dataTmp.value + line + "\n");
      hasher := hasher + line + "\n";
      rowCount := rowCount + 1;
      maxBytes := Max(maxBytes, size);
      shape.Update(row, rows[..i]);
      if |previews| < limits.previewRows {
        if size <= limits.previewCap {
          previews := previews + [Shown(row)];
        } else {
          previews := previews + [Omitted(rowCount, size)];
        }
      }
    }
    assert rows[..|rows|] == rows;
    var meta := Meta(run.id, DataPath(run), MetaPath(run), rowCount, shape.shape, maxBytes, codec.digest(hasher));
    bound := meta;
    HitLater(rows, fault);
    var strikes := if RowFault(fault) then None else fault;
    var promoted := files.Publish(meta, strikes, stuck);
    if strikes.Some? && Excepts(strikes.value, stuck) {
      files.CleanUp(promoted, stuck);
      CleanedIs(strikes.value, stuck, DataOf(codec, rows), bound);
    }
    return Ending(strikes, stuck), previews, bound;
  }

  /** The two writers, met by the same fault, end alike: the same verdict, and the same
      data and metadata wherever both leave any. They leave the same final files exactly
      unless an interruption parts them. */
  lemma WritersAgree(codec: Codec, run: Run, streamed: Files, batch: Files, rows: seq<Json>, fault: Option<Fault>,
                     stuck: Stuck, end: End, end': End, bound: Meta, bound': Meta)
    requires var hit := Hit(rows, fault); Outcome(codec, run, streamed, rows, hit, Cleans(Stream, hit, stuck), stuck, end, bound)
    requires var hit := Hit(rows, fault); Outcome(codec, run, batch, rows, hit, Cleans(Batch, hit, stuck), stuck, end', bound')
    ensures end == end'
    ensures streamed.data.Some? && batch.data.Some? ==> streamed.data == batch.data
    ensures streamed.meta.Some? && batch.meta.Some? ==> streamed.meta == batch.meta
    ensures (streamed.data == batch.data && streamed.meta == batch.meta) <==> !Parts(Hit(rows, fault), stuck)
  {
    hide DataOf, Describes, IsLargest, Hit;
    var hit := Hit(rows, fault);
    if !RowFault(hit) {
      BindsIsUnique(codec, run, bound, bound', rows);
    }
  }

  // ------------------------------------------------------------ failures, concretely

  const FINE := Stuck(false, false, false, false, false)

  /** Both writers, interrupted between the data file's rename and its note, leave the data
      file alone, although every removal works. */
  method InterruptedRename(codec: Codec, limits: Limits, run: Run, rows: seq<Json>) returns (streamed: Files, batch: Files)
    requires AllObjects(rows)
    ensures streamed.data == batch.data == Some(DataOf(codec, rows)) && streamed.meta == batch.meta == None
  {
    hide DataOf, Binds, PreviewsOf, FirstBad;
    AllGood(rows);
    var fault := Some(Fault(DataRenamed, Interrupt));
    streamed := new Files();
    var end, previews, bound := StreamResult(codec, limits, run, streamed, rows, fault, FINE);
    batch := new Files();
    end, previews, bound := WriteResult(codec, limits, run, batch, rows, fault, FINE);
  }

  /** Interrupted between the two renames, the writers part: the `with` block removes the
      data file and `write_result` leaves it alone. */
  method InterruptedBetween(codec: Codec, limits: Limits, run: Run, rows: seq<Json>) returns (streamed: Files, batch: Files)
    requires AllObjects(rows)
    ensures streamed.data == None && batch.data == Some(DataOf(codec, rows)) && streamed.meta == batch.meta == None
  {
    hide DataOf, Binds, PreviewsOf, FirstBad;
    AllGood(rows);
    var fault := Some(Fault(RenameMeta, Interrupt));
    streamed := new Files();
    var end, previews, bound := StreamResult(codec, limits, run, streamed, rows, fault, FINE);
    batch := new Files();
    end, previews, bound := WriteResult(codec, limits, run, batch, rows, fault, FINE);
  }

  /** Both writers, raising between the metadata's rename and its note, remove the data file
      and leave the metadata alone, for every reader to find. */
  method LateFailure(codec: Codec, limits: Limits, run: Run, rows: seq<Json>) returns (streamed: Files, batch: Files)
    requires AllObjects(rows)
    ensures streamed.data == batch.data == None && streamed.meta.Some? && batch.meta.Some?
    ensures !CrashSafe(codec, streamed.history) && !CrashSafe(codec, batch.history)
  {
    hide DataOf, Binds, PreviewsOf, FirstBad;
    AllGood(rows);
    var fault := Some(Fault(MetaRenamed, Raise));
    streamed := new Files();
    var end, previews, bound := StreamResult(codec, limits, run, streamed, rows, fault, FINE);
    assert streamed.history[2] == Snapshot(None, streamed.meta);
    batch := new Files();
    end, previews, bound := WriteResult(codec, limits, run, batch, rows, fault, FINE);
    assert batch.history[2] == Snapshot(None, batch.meta);
  }

  lemma AllGood(rows: seq<Json>)
    requires AllObjects(rows)
    ensures FirstBad(rows) == |rows|
  {
  }

  lemma Nothing(codec: Codec, limits: Limits)
    ensures PreviewsOf(codec, limits, []) == [] && IsLargest(codec, [], 0) && DataOf(codec, []) == ""
  {
  }
}
