/**
  A result bundle (`results.py`): one JSON line per row, and metadata that binds its
  digest, its row count and its observed shape. What a bundle of given rows must be is
  said here; the two writers and the reader are proved against it.
*/
module Bundle {
  import opened Common
  import opened Shape

  /** JSON text and SHA-256 are parameters. `size` is the UTF-8 length of a line. */
  datatype Codec = Codec(encode: Json -> string, decode: string -> Option<Json>, size: string -> nat,
                         digest: string -> string)

  /** Nothing but what `bytes.strip` removes, vertical tab and form feed included. */
  predicate IsBlank(line: string) {
    forall i :: 0 <= i < |line| ==> line[i] in " \t\n\r\U{B}\U{C}"
  }

  predicate OneLine(s: string) {
    forall i :: 0 <= i < |s| ==> s[i] != '\n'
  }

  /** Encoding gives nonblank single lines that decode to the same value, and digests of
      different texts differ. */
  ghost predicate Sound(codec: Codec) {
    && (forall v :: OneLine(codec.encode(v)) && !IsBlank(codec.encode(v) + "\n"))
    && (forall v :: codec.decode(codec.encode(v) + "\n") == Some(v))
    && forall a, b :: codec.digest(a) == codec.digest(b) ==> a == b
  }

  datatype Preview = Shown(row: Json) | Omitted(number: nat, size: nat)

  datatype Limits = Limits(previewRows: nat, previewCap: nat)

  /** A resolved path. */
  datatype FilePath = FilePath(dir: string, name: string)

  /** A run ID in the directory of its day. */
  datatype Run = Run(dir: string, id: string)

  function DataPath(run: Run): FilePath {
    FilePath(run.dir, run.id + ".jsonl")
  }

  function MetaPath(run: Run): FilePath {
    FilePath(run.dir, run.id + ".meta.json")
  }

  /** The metadata file, by the fields that bind it to its data. */
  datatype Meta = Meta(
    runId: string,
    dataPath: FilePath,
    metaPath: FilePath,
    rowCount: nat,
    shape: Index,
    maxBytes: nat,
    digest: string)

  // ------------------------------------------------- what a bundle of `rows` must be

  /** The data file. */
  function DataOf(codec: Codec, rows: seq<Json>): string {
    if rows == [] then "" else codec.encode(rows[0]) + "\n" + DataOf(codec, rows[1..])
  }

  lemma {:induction false} DataAppends(codec: Codec, rows: seq<Json>, row: Json)
    ensures DataOf(codec, rows + [row]) == DataOf(codec, rows) + codec.encode(row) + "\n"
  {
    if rows == [] {
      assert [] + [row] == [row] && [row][1..] == [];
      assert DataOf(codec, [row]) == codec.encode(row) + "\n" + "";
    } else {
      assert (rows + [row])[1..] == rows[1..] + [row];
      DataAppends(codec, rows[1..], row);
    }
  }

  function SizeOf(codec: Codec, row: Json): nat {
    codec.size(codec.encode(row))
  }

  function PreviewOf(codec: Codec, cap: nat, row: Json, number: nat): Preview {
    if SizeOf(codec, row) <= cap then Shown(row) else Omitted(number, SizeOf(codec, row))
  }

  function PreviewsOf(codec: Codec, limits: Limits, rows: seq<Json>): seq<Preview> {
    seq(Min(limits.previewRows, |rows|), i requires 0 <= i < |rows| => PreviewOf(codec, limits.previewCap, rows[i], i + 1))
  }

  lemma PreviewsAppend(codec: Codec, limits: Limits, rows: seq<Json>, row: Json)
    ensures PreviewsOf(codec, limits, rows + [row]) ==
      if |rows| < limits.previewRows
      then PreviewsOf(codec, limits, rows) + [PreviewOf(codec, limits.previewCap, row, |rows| + 1)]
      else PreviewsOf(codec, limits, rows)
  {
    var all := rows + [row];
    assert forall i :: 0 <= i < |rows| ==> all[i] == rows[i];
  }

  /** `largest` is the size of the largest row, and 0 if there is none. */
  predicate IsLargest(codec: Codec, rows: seq<Json>, largest: nat) {
    && (forall i :: 0 <= i < |rows| ==> SizeOf(codec, rows[i]) <= largest)
    && (largest == 0 || exists i :: 0 <= i < |rows| && SizeOf(codec, rows[i]) == largest)
  }

  lemma LargestAppends(codec: Codec, rows: seq<Json>, largest: nat, row: Json)
    requires IsLargest(codec, rows, largest)
    ensures IsLargest(codec, rows + [row], Max(largest, SizeOf(codec, row)))
  {
    var all := rows + [row];
    assert forall i :: 0 <= i < |rows| ==> all[i] == rows[i];
    assert all[|rows|] == row;
    if largest > 0 {
      var i :| 0 <= i < |rows| && SizeOf(codec, rows[i]) == largest;
      assert SizeOf(codec, all[i]) == largest;
    }
  }

  /** The metadata of a bundle of these rows under this run ID. */
  ghost predicate Binds(codec: Codec, run: Run, meta: Meta, rows: seq<Json>) {
    && meta.runId == run.id && meta.dataPath == DataPath(run) && meta.metaPath == MetaPath(run)
    && meta.rowCount == |rows|
    && Describes(meta.shape, rows)
    && IsLargest(codec, rows, meta.maxBytes)
    && meta.digest == codec.digest(DataOf(codec, rows))
  }

  /** Everything in the metadata is determined by the rows, so two writers that satisfy
      `Binds` write the same metadata. */
  lemma BindsIsUnique(codec: Codec, run: Run, a: Meta, b: Meta, rows: seq<Json>)
    requires Binds(codec, run, a, rows) && Binds(codec, run, b, rows)
    ensures a == b
  {
    ShapeIsOrderFree(a.shape, b.shape, rows, rows);
    LargestIsUnique(codec, rows, a.maxBytes, b.maxBytes);
  }

  lemma LargestIsUnique(codec: Codec, rows: seq<Json>, a: nat, b: nat)
    requires IsLargest(codec, rows, a) && IsLargest(codec, rows, b)
    ensures a == b
  {
    if a > 0 {
      var i :| 0 <= i < |rows| && SizeOf(codec, rows[i]) == a;
      assert a <= b;
    }
    if b > 0 {
      var i :| 0 <= i < |rows| && SizeOf(codec, rows[i]) == b;
      assert b <= a;
    }
  }

  /** The blank characters by code: tab, newline, vertical tab, form feed, return, space. */
  lemma BlankIs(line: string)
    ensures IsBlank(line) <==> forall c :: c in line ==> c as int in {9, 10, 11, 12, 13, 32}
  {
    if forall c :: c in line ==> c as int in {9, 10, 11, 12, 13, 32} {
      forall i | 0 <= i < |line| ensures line[i] in " \t\n\r\U{B}\U{C}" {
        assert line[i] in line;
      }
    }
  }

  /** The previews are the first rows, each one shown exactly if its line is within the cap
      and otherwise replaced by its number, counted from one, and its size. */
  lemma PreviewsAre(codec: Codec, limits: Limits, rows: seq<Json>)
    ensures |PreviewsOf(codec, limits, rows)| == if |rows| < limits.previewRows then |rows| else limits.previewRows
    ensures forall i :: 0 <= i < |PreviewsOf(codec, limits, rows)| ==>
      var size := codec.size(codec.encode(rows[i]));
      PreviewsOf(codec, limits, rows)[i] == if size > limits.previewCap then Omitted(i + 1, size) else Shown(rows[i])
  {
  }
}
