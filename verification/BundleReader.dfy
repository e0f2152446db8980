/**
  Reading a bundle back (`commands/results_cmd.py`): `_verified_result_rows` checks the
  identity, the digest and the count while it collects one page of matching rows, and
  `results rows` offers the command for the next page.
*/
module BundleReader {
  import opened Common
  import opened Shape
  import opened Bundle
  import opened BundleWriters

  datatype ReadError = NotIdentified | Unreadable | Unparsable | Modified | CountMismatch

  datatype ReadResult = Ok(rows: seq<Json>, matching: nat) | Err(error: ReadError)

  /** Below the root of the results. */
  predicate Below(path: FilePath, root: string) {
    path.dir == root || root + "/" <= path.dir
  }

  /** The metadata, found at this path, names itself and the data file beside it, both
      after its run ID, and the data file lies below the root of the results. */
  predicate Identified(meta: Meta, found: FilePath, root: string) {
    && found.name == meta.runId + ".meta.json"
    && Below(meta.dataPath, root) && meta.dataPath.dir == found.dir && meta.dataPath.name == meta.runId + ".jsonl"
    && meta.metaPath == found
  }

  // ------------------------------------------------------------- lines of the file

  /** The first line with its newline, or all of the text if it has none. */
  function FirstLine(text: string): (line: string)
    requires text != ""
    ensures 0 < |line| <= |text|
  {
    if text[0] == '\n' || |text| == 1 then text[..1] else text[..1] + FirstLine(text[1..])
  }

  /** Reading a file line by line. */
  function Lines(text: string): seq<string>
    decreases |text|
  {
    if text == "" then [] else [FirstLine(text)] + Lines(text[|FirstLine(text)|..])
  }

  /** The rows on these lines, or `None` if one is not a JSON object. */
  function Parse(codec: Codec, lines: seq<string>): Option<seq<Json>> {
    if lines == [] then Some([])
    else
      match Parse(codec, lines[..|lines| - 1])
      case None => None
      case Some(rows) =>
        var last := lines[|lines| - 1];
        if IsBlank(last) then Some(rows)
        else
          match codec.decode(last)
          case None => None
          case Some(value) => if value.Object? then Some(rows + [value]) else None
  }

  // --------------------------------------------------------------- filter and page

  function RecordType(fields: seq<Field>): Option<Json> {
    if fields == [] then None
    else if fields[0].key == "record_type" then Some(fields[0].value)
    else RecordType(fields[1..])
  }

  predicate Matches(row: Json, wanted: Option<string>) {
    wanted.Some? ==> row.Object? && RecordType(row.fields) == Some(Text(wanted.value))
  }

  function Matching(rows: seq<Json>, wanted: Option<string>): seq<Json> {
    if rows == [] then []
    else Matching(rows[..|rows| - 1], wanted) + if Matches(rows[|rows| - 1], wanted) then [rows[|rows| - 1]] else []
  }

  /** The slice `[offset, offset + limit)` of a list, as far as the list goes. */
  function Slice(rows: seq<Json>, offset: nat, limit: Option<nat>): seq<Json> {
    var from := Min(offset, |rows|);
    rows[from..if limit.Some? then Min(from + limit.value, |rows|) else |rows|]
  }

  lemma SliceAppend(rows: seq<Json>, row: Json, offset: nat, limit: Option<nat>)
    ensures Slice(rows + [row], offset, limit) == Slice(rows, offset, limit) +
      if |rows| >= offset && (limit.None? || |Slice(rows, offset, limit)| < limit.value) then [row] else []
  {
  }

  lemma ParseStep(codec: Codec, lines: seq<string>, line: string)
    ensures Parse(codec, lines + [line]) ==
      match Parse(codec, lines)
      case None => None
      case Some(rows) =>
        if IsBlank(line) then Some(rows)
        else
          match codec.decode(line)
          case None => None
          case Some(value) => if value.Object? then Some(rows + [value]) else None
  {
    assert (lines + [line])[..|lines|] == lines;
  }

  lemma {:induction false} ParseFailsFrom(codec: Codec, lines: seq<string>, more: seq<string>)
    requires Parse(codec, lines).None?
    ensures Parse(codec, lines + more).None?
  {
    if more == [] {
      assert lines + more == lines;
    } else {
      assert lines + more == lines + more[..|more| - 1] + [more[|more| - 1]];
      ParseFailsFrom(codec, lines, more[..|more| - 1]);
      ParseStep(codec, lines + more[..|more| - 1], more[|more| - 1]);
    }
  }

  lemma MatchingStep(rows: seq<Json>, row: Json, wanted: Option<string>)
    ensures Matching(rows + [row], wanted) == Matching(rows, wanted) + if Matches(row, wanted) then [row] else []
  {
    assert (rows + [row])[..|rows|] == rows;
  }

  /** What the reader returns for a bundle with this metadata and data. */
  function Read(codec: Codec, meta: Meta, found: FilePath, root: string, data: Option<string>,
                limit: Option<nat>, offset: nat, wanted: Option<string>): ReadResult {
    if !Identified(meta, found, root) then Err(NotIdentified)
    else if data.None? then Err(Unreadable)
    else
      match Parse(codec, Lines(data.value))
      case None => Err(Unparsable)
      case Some(rows) =>
        if codec.digest(data.value) != meta.digest then Err(Modified)
        else if meta.rowCount != |rows| then Err(CountMismatch)
        else Ok(Slice(Matching(rows, wanted), offset, limit), |Matching(rows, wanted)|)
  }

  /** `_verified_result_rows`: `data` is the data file, or `None` if it cannot be read. */
  method VerifiedResultRows(codec: Codec, meta: Meta, found: FilePath, root: string, data: Option<string>,
                            limit: Option<nat>, offset: nat, wanted: Option<string>)
    returns (result: ReadResult)
    ensures result == Read(codec, meta, found, root, data, limit, offset, wanted)
  {
    hide Parse, Matching, Slice, Concat, IsBlank, Matches, Lines, Identified;
    if !Identified(meta, found, root) {
      return Err(NotIdentified);
    }
    if data.None? {
      return Err(Unreadable);
    }
    var lines := Lines(data.value);
    var hashed, rows, rowCount, matching := "", [], 0, 0;
    ghost var parsed: seq<Json> := [];
    Beginning();
    NothingRead(codec, wanted, offset, limit);
    for i := 0 to |lines|
      invariant hashed == Concat(lines[..i])
      invariant Parse(codec, lines[..i]) == Some(parsed) && rowCount == |parsed|
      invariant matching == |Matching(parsed, wanted)|
      invariant rows == Slice(Matching(parsed, wanted), offset, limit)
    {
      var line := lines[i];
      assert lines[..i + 1] == lines[..i] + [line];
      ConcatStep(lines[..i], line);
      ParseStep(codec, lines[..i], line);
      hashed := hashed + line;
      if IsBlank(line) {
        continue;
      }
      var value := codec.decode(line);
      if value.None? || !value.value.Object? {
        assert lines == lines[..i + 1] + lines[i + 1..];
        ParseFailsFrom(codec, lines[..i + 1], lines[i + 1..]);
        return Err(Unparsable);
      }
      MatchingStep(parsed, value.value, wanted);
      SliceAppend(Matching(parsed, wanted), value.value, offset, limit);
      assert Matching(parsed, wanted) + [] == Matching(parsed, wanted) && rows + [] == rows;
      parsed := parsed + [value.value];
      rowCount := rowCount + 1;
      if Matches(value.value, wanted) {
        if matching >= offset && (limit.None? || |rows| < limit.value) {
          rows := rows + [value.value];
        }
        matching := matching + 1;
      }
    }
    assert lines[..|lines|] == lines;
    LinesMakeTheText(data.value);
    if codec.digest(hashed) != meta.digest {
      return Err(Modified);
    }
    if meta.rowCount != rowCount {
      return Err(CountMismatch);
    }
    return Ok(rows, matching);
  }

  function Concat(lines: seq<string>): string {
    if lines == [] then "" else Concat(lines[..|lines| - 1]) + lines[|lines| - 1]
  }

  lemma Beginning()
    ensures Concat([]) == ""
  {
  }

  lemma NothingRead(codec: Codec, wanted: Option<string>, offset: nat, limit: Option<nat>)
    ensures Parse(codec, []) == Some([]) && Matching([], wanted) == []
    ensures Slice([], offset, limit) == []
  {
  }

  lemma ConcatStep(lines: seq<string>, line: string)
    ensures Concat(lines + [line]) == Concat(lines) + line
  {
    assert (lines + [line])[..|lines|] == lines;
  }

  lemma {:induction false} ConcatFront(line: string, lines: seq<string>)
    ensures Concat([line] + lines) == line + Concat(lines)
  {
    Beginning();
    hide Concat;
    if lines == [] {
      assert [line] + lines == [] + [line];
      ConcatStep([], line);
    } else {
      var rest, last := lines[..|lines| - 1], lines[|lines| - 1];
      ConcatFront(line, rest);
      assert lines == rest + [last] && [line] + lines == ([line] + rest) + [last];
      ConcatStep([line] + rest, last);
      ConcatStep(rest, last);
    }
  }

  lemma {:induction false} FirstLineIsPrefix(text: string)
    requires text != ""
    ensures FirstLine(text) + text[|FirstLine(text)|..] == text
  {
    if !(text[0] == '\n' || |text| == 1) {
      FirstLineIsPrefix(text[1..]);
      assert text == text[..1] + text[1..];
      var n := |FirstLine(text[1..])|;
      assert text[1..][n..] == text[n + 1..];
    }
  }

  /** The digest is taken over the whole file. */
  lemma {:induction false} LinesMakeTheText(text: string)
    ensures Concat(Lines(text)) == text
    decreases |text|
  {
    if text != "" {
      var first := FirstLine(text);
      FirstLineIsPrefix(text);
      LinesMakeTheText(text[|first|..]);
      ConcatFront(first, Lines(text[|first|..]));
    }
  }

  // --------------------------------------------------------------------- round trip

  lemma {:induction false} FirstLineOfRow(s: string, rest: string)
    requires OneLine(s)
    ensures FirstLine(s + "\n" + rest) == s + "\n"
  {
    var text := s + "\n" + rest;
    if s == "" {
      assert text[..1] == "\n";
    } else {
      assert text[0] == s[0] && text[..1] == s[..1];
      assert text[1..] == s[1..] + "\n" + rest;
      FirstLineOfRow(s[1..], rest);
      assert s[..1] + (s[1..] + "\n") == s + "\n";
    }
  }

  function LinesOf(codec: Codec, rows: seq<Json>): seq<string> {
    if rows == [] then [] else [codec.encode(rows[0]) + "\n"] + LinesOf(codec, rows[1..])
  }

  lemma {:induction false} WrittenLines(codec: Codec, rows: seq<Json>)
    requires Sound(codec)
    ensures Lines(DataOf(codec, rows)) == LinesOf(codec, rows)
  {
    if rows != [] {
      var s, rest := codec.encode(rows[0]), DataOf(codec, rows[1..]);
      FirstLineOfRow(s, rest);
      assert (s + "\n" + rest)[|s + "\n"|..] == rest;
      WrittenLines(codec, rows[1..]);
    }
  }

  lemma {:induction false} LinesOfAppend(codec: Codec, rows: seq<Json>, row: Json)
    ensures LinesOf(codec, rows + [row]) == LinesOf(codec, rows) + [codec.encode(row) + "\n"]
  {
    if rows == [] {
      assert [] + [row] == [row] && [row][1..] == [];
    } else {
      assert (rows + [row])[1..] == rows[1..] + [row];
      LinesOfAppend(codec, rows[1..], row);
    }
  }

  lemma {:induction false} WrittenRowsParse(codec: Codec, rows: seq<Json>)
    requires Sound(codec) && forall i :: 0 <= i < |rows| ==> rows[i].Object?
    ensures Parse(codec, LinesOf(codec, rows)) == Some(rows)
  {
    if rows != [] {
      var rest, last := rows[..|rows| - 1], rows[|rows| - 1];
      WrittenRowsParse(codec, rest);
      assert rows == rest + [last];
      LinesOfAppend(codec, rest, last);
      ParseStep(codec, LinesOf(codec, rest), codec.encode(last) + "\n");
    }
  }

  /** Writing rows and reading the bundle back succeeds and returns, of exactly those
      rows, the wanted page and the number that match. */
  lemma WrittenIsRead(codec: Codec, run: Run, root: string, meta: Meta, rows: seq<Json>,
                      limit: Option<nat>, offset: nat, wanted: Option<string>)
    requires Sound(codec) && Binds(codec, run, meta, rows) && Below(DataPath(run), root)
    requires forall i :: 0 <= i < |rows| ==> rows[i].Object?
    ensures Read(codec, meta, MetaPath(run), root, Some(DataOf(codec, rows)), limit, offset, wanted) ==
            Ok(Slice(Matching(rows, wanted), offset, limit), |Matching(rows, wanted)|)
  {
    WrittenLines(codec, rows);
    WrittenRowsParse(codec, rows);
  }

  lemma {:induction false} AllMatch(rows: seq<Json>)
    ensures Matching(rows, None) == rows && Slice(rows, 0, None) == rows
  {
    if rows != [] {
      AllMatch(rows[..|rows| - 1]);
    }
  }

  /** Without a filter the reader returns exactly the rows that were written. */
  lemma RoundTrip(codec: Codec, run: Run, root: string, meta: Meta, rows: seq<Json>)
    requires Sound(codec) && Binds(codec, run, meta, rows) && Below(DataPath(run), root)
    requires forall i :: 0 <= i < |rows| ==> rows[i].Object?
    ensures Read(codec, meta, MetaPath(run), root, Some(DataOf(codec, rows)), None, 0, None) == Ok(rows, |rows|)
  {
    WrittenIsRead(codec, run, root, meta, rows, None, 0, None);
    AllMatch(rows);
  }

  /** What either writer leaves when no fault strikes is read back: exactly the rows. */
  lemma WriterThenReader(codec: Codec, run: Run, root: string, files: Files, rows: seq<Json>, cleans: bool, stuck: Stuck,
                         end: End, bound: Meta)
    requires Sound(codec) && Below(DataPath(run), root)
    requires Outcome(codec, run, files, rows, None, cleans, stuck, end, bound)
    ensures end.Returned? && files.meta.Some?
    ensures Read(codec, files.meta.value, MetaPath(run), root, files.data, None, 0, None) == Ok(rows, |rows|)
  {
    hide Read, Binds, DataOf, Sound;
    RoundTrip(codec, run, root, bound, rows);
  }

  /** Whatever the data file has become, and wherever the metadata has been moved, the
      reader accepts them only if the data is, byte for byte, what was written and the
      metadata lies where it was written. */
  lemma OnlyTheWrittenDataIsRead(codec: Codec, run: Run, root: string, meta: Meta, rows: seq<Json>, found: FilePath,
                                 data: Option<string>, limit: Option<nat>, offset: nat, wanted: Option<string>)
    requires Sound(codec) && Binds(codec, run, meta, rows)
    requires Read(codec, meta, found, root, data, limit, offset, wanted).Ok?
    ensures data == Some(DataOf(codec, rows)) && found == MetaPath(run)
  {
    hide Parse, Lines, DataOf, Slice, Matching;
  }

  // ------------------------------------------------------------------------- paging

  /** `results rows`: the page shown and the offset of the next command, if any. */
  datatype Output = Output(rows: seq<Json>, total: nat, next: Option<nat>)

  function ResultsRows(matching: seq<Json>, offset: nat, limit: nat): Output {
    var page := Slice(matching, offset, Some(limit));
    var nextOffset := offset + |page|;
    Output(page, |matching|, if nextOffset < |matching| then Some(nextOffset) else None)
  }

  /** Everything printed by following `next_command` from here, page after page. */
  function Follow(matching: seq<Json>, offset: nat, limit: nat): seq<seq<Json>>
    requires limit >= 1
    decreases if offset <= |matching| then |matching| - offset else 0
  {
    var shown := ResultsRows(matching, offset, limit);
    [shown.rows] + if shown.next.Some? then Follow(matching, shown.next.value, limit) else []
  }

  function Joined(pages: seq<seq<Json>>): seq<Json> {
    if pages == [] then [] else pages[0] + Joined(pages[1..])
  }

  /** A next page is offered only while rows are left, and always starts further on. */
  lemma NextMovesOn(matching: seq<Json>, offset: nat, limit: nat)
    requires limit >= 1
    ensures var shown := ResultsRows(matching, offset, limit);
            && (shown.next.Some? <==> offset + limit < |matching|)
            && (shown.next.Some? ==> shown.next.value == offset + limit)
            && (offset <= |matching| && shown.next.Some? ==> matching[offset..] == shown.rows + matching[offset + limit..])
            && (offset <= |matching| && shown.next.None? ==> matching[offset..] == shown.rows)
  {
  }

  /** Following the commands visits every matching row from the offset on once, in order,
      and stops. */
  lemma {:induction false} FollowVisitsAll(matching: seq<Json>, offset: nat, limit: nat)
    requires limit >= 1 && offset <= |matching|
    ensures Joined(Follow(matching, offset, limit)) == matching[offset..]
    decreases |matching| - offset
  {
    hide ResultsRows, Slice, Joined, Follow;
    var rows := ResultsRows(matching, offset, limit).rows;
    NextMovesOn(matching, offset, limit);
    if offset + limit < |matching| {
      FollowVisitsAll(matching, offset + limit, limit);
      JoinFirst(rows, Follow(matching, offset + limit, limit));
      FollowOn(matching, offset, limit);
    } else {
      JoinFirst(rows, []);
      FollowOn(matching, offset, limit);
    }
  }

  lemma FollowOn(matching: seq<Json>, offset: nat, limit: nat)
    requires limit >= 1
    ensures var shown := ResultsRows(matching, offset, limit);
            Follow(matching, offset, limit) ==
              [shown.rows] + if shown.next.Some? then Follow(matching, shown.next.value, limit) else []
  {
  }

  lemma JoinFirst(first: seq<Json>, rest: seq<seq<Json>>)
    ensures Joined([first] + rest) == first + Joined(rest) && Joined([]) == [] && first + [] == first
  {
    assert ([first] + rest)[1..] == rest;
  }

  /** Every page but the last is full, so the number of pages is least possible. */
  lemma {:induction false} PagesAreFull(matching: seq<Json>, offset: nat, limit: nat, i: nat)
    requires limit >= 1 && offset <= |matching| && i < |Follow(matching, offset, limit)|
    ensures |Follow(matching, offset, limit)[i]| <= limit
    ensures i < |Follow(matching, offset, limit)| - 1 ==> |Follow(matching, offset, limit)[i]| == limit
    decreases i
  {
    NextMovesOn(matching, offset, limit);
    if i > 0 {
      PagesAreFull(matching, offset + limit, limit, i - 1);
    }
  }

  // ---------------------------------------------------------------- what is matched

  /** A row matches a filter by the first value of its `record_type`, and only by that. */
  lemma MatchesIs(row: Json, wanted: string)
    ensures Matches(row, None)
    ensures Matches(row, Some(wanted)) <==>
      row.Object? && exists k :: 0 <= k < |row.fields| && FirstOf(row.fields, "record_type", k)
                                 && row.fields[k].value == Text(wanted)
  {
    if row.Object? {
      RecordTypeIs(row.fields);
    }
  }

  predicate FirstOf(fields: seq<Field>, key: string, k: nat)
    requires k < |fields|
  {
    fields[k].key == key && forall j :: 0 <= j < k ==> fields[j].key != key
  }

  lemma {:induction false} RecordTypeIs(fields: seq<Field>)
    ensures forall k :: 0 <= k < |fields| && FirstOf(fields, "record_type", k) ==> RecordType(fields) == Some(fields[k].value)
    ensures RecordType(fields).Some? ==> exists k :: 0 <= k < |fields| && FirstOf(fields, "record_type", k)
  {
    if fields != [] {
      RecordTypeIs(fields[1..]);
      if fields[0].key == "record_type" {
        assert FirstOf(fields, "record_type", 0);
      } else {
        forall k | 0 <= k < |fields| && FirstOf(fields, "record_type", k)
          ensures RecordType(fields) == Some(fields[k].value)
        {
          assert FirstOf(fields[1..], "record_type", k - 1);
        }
        if RecordType(fields).Some? {
          var k :| 0 <= k < |fields[1..]| && FirstOf(fields[1..], "record_type", k);
          assert FirstOf(fields, "record_type", k + 1);
        }
      }
    }
  }

  /** A filter keeps every matching row as often as it occurs, and no other. */
  lemma {:induction false} MatchingCounts(rows: seq<Json>, wanted: Option<string>, row: Json)
    ensures multiset(Matching(rows, wanted))[row] == if Matches(row, wanted) then multiset(rows)[row] else 0
  {
    hide Matches;
    if rows != [] {
      assert rows == rows[..|rows| - 1] + [rows[|rows| - 1]];
      MatchingCounts(rows[..|rows| - 1], wanted, row);
    }
  }

  /** Below the root means in it or in a directory inside it; a longer name is not. */
  lemma BelowIs()
    ensures Below(FilePath("/r", "a.jsonl"), "/r") && Below(FilePath("/r/day", "a.jsonl"), "/r")
    ensures !Below(FilePath("/r2", "a.jsonl"), "/r") && !Below(FilePath("/", "a.jsonl"), "/r")
  {
    assert "/r" + "/" == "/r/";
    assert "/r/day"[..3] == "/r/";
    assert "/r2"[2] == '2';
  }

  /** The rows of the lines: every line that is not blank must be a JSON object, and they
      are then these objects in order. */
  lemma {:induction false} ParseIs(codec: Codec, lines: seq<string>)
    ensures Parse(codec, lines).Some? <==>
      forall i :: 0 <= i < |lines| && !IsBlank(lines[i]) ==>
        codec.decode(lines[i]).Some? && codec.decode(lines[i]).value.Object?
    ensures Parse(codec, lines).Some? ==> Parse(codec, lines).value == Decoded(codec, lines)
  {
    hide IsBlank;
    if lines != [] {
      var rest, last := lines[..|lines| - 1], lines[|lines| - 1];
      ParseIs(codec, rest);
      assert lines == rest + [last] && lines[|rest|] == last;
      assert forall i :: 0 <= i < |rest| ==> lines[i] == rest[i];
      DecodedAppends(codec, rest, last);
    }
  }

  /** What the lines decode to, from the front. */
  function Decoded(codec: Codec, lines: seq<string>): seq<Json> {
    if lines == [] then []
    else
      (if IsBlank(lines[0]) || codec.decode(lines[0]).None? then [] else [codec.decode(lines[0]).value])
      + Decoded(codec, lines[1..])
  }

  lemma {:induction false} DecodedAppends(codec: Codec, lines: seq<string>, line: string)
    ensures Decoded(codec, lines + [line]) ==
      Decoded(codec, lines) + if IsBlank(line) || codec.decode(line).None? then [] else [codec.decode(line).value]
  {
    hide IsBlank;
    if lines == [] {
      assert ([] + [line])[0] == line && ([] + [line])[1..] == [];
      assert Decoded(codec, []) == [];
    } else {
      assert (lines + [line])[0] == lines[0] && (lines + [line])[1..] == lines[1..] + [line];
      DecodedAppends(codec, lines[1..], line);
    }
  }

  /** Each error of the reader, and when it is the one: identity first, then the file, its
      lines, its digest and its count. */
  lemma ReadIs(codec: Codec, meta: Meta, found: FilePath, root: string, data: Option<string>,
               limit: Option<nat>, offset: nat, wanted: Option<string>)
    ensures var r := Read(codec, meta, found, root, data, limit, offset, wanted);
            var identified := && found.name == meta.runId + ".meta.json" && meta.metaPath == found && Below(meta.dataPath, root)
                              && meta.dataPath == FilePath(found.dir, meta.runId + ".jsonl");
            && (r == Err(NotIdentified) <==> !identified)
            && (r == Err(Unreadable) <==> identified && data.None?)
            && (identified && data.Some? ==>
                  var rows := Parse(codec, Lines(data.value));
                  && (r == Err(Unparsable) <==> rows.None?)
                  && (r == Err(Modified) <==> rows.Some? && codec.digest(data.value) != meta.digest)
                  && (r == Err(CountMismatch) <==>
                        rows.Some? && codec.digest(data.value) == meta.digest && |rows.value| != meta.rowCount)
                  && (r.Ok? ==> r.matching == |Matching(rows.value, wanted)|))
  {
    hide Parse, Lines, Matching, Slice, Below;
  }
}
