/**
  Event-log listing and selection (`live_response/event_logs.py`): the listing maps each
  `.evtx` basename to its size and fails closed; the selection turns it into rows.
*/
module EventLogs {
  import opened Common

  datatype Result<+T, +E> = Ok(value: T) | Err(error: E)

  /** A decoded listing entry; `None` where the field is missing or of another type. */
  datatype RawEntry =
    | NotAnObject
    | RawEntry(path: Option<string>, size: Option<int>, isDirectory: Option<bool>)

  /** A decoded output row; `data` is `None` where it is not a list. */
  datatype RawRow = NotADict | RawRow(data: Option<seq<RawEntry>>)

  datatype ListingError = NoEntries | UnexpectedShape | InvalidSize | UnexpectedName | RepeatedName

  datatype Listed = Listed(name: string, size: int)

  // ----------------------------------------------------------------- file names

  predicate Alphanumeric(c: char) {
    'a' <= c <= 'z' || 'A' <= c <= 'Z' || '0' <= c <= '9'
  }

  predicate HasExtension(name: string) {
    |name| >= 5 && Lower(name[|name| - 5..]) == ".evtx"
  }

  predicate IsBasename(name: string) {
    && HasExtension(name)
    && 6 <= |name| <= 256
    && Alphanumeric(name[0])
    && forall i :: 1 <= i < |name| - 5 ==> Alphanumeric(name[i]) || name[i] in " _%()+,.-"
  }

  predicate HasDotDot(name: string) {
    exists i :: 0 <= i < |name| - 1 && name[i] == '.' && name[i + 1] == '.'
  }

  /** A path beneath the fixed event-log folder, given by its basename. */
  datatype Remote = InLogsFolder(basename: string)

  /** `remote_path`: anchor a validated basename beneath the folder. */
  function RemotePath(name: string): Option<Remote> {
    if !IsBasename(name) || HasDotDot(name) then None else Some(InLogsFolder(name))
  }

  function Stem(name: string): string {
    if |name| >= 5 then name[..|name| - 5] else ""
  }

  /** Distinct even when case is ignored. */
  predicate DistinctNames(names: seq<string>) {
    forall i, j :: 0 <= i < j < |names| ==> Lower(names[i]) != Lower(names[j])
  }

  function Names(listed: seq<Listed>): seq<string> {
    seq(|listed|, i requires 0 <= i < |listed| => listed[i].name)
  }

  predicate Fetchable(listed: seq<Listed>) {
    && DistinctNames(Names(listed))
    && forall i :: 0 <= i < |listed| ==> RemotePath(listed[i].name).Some? && listed[i].size >= 0
  }

  // -------------------------------------------------------------------- listing

  function Entries(rows: seq<RawRow>): seq<RawEntry> {
    if rows == [] then []
    else Entries(rows[..|rows| - 1]) +
         match rows[|rows| - 1]
         case NotADict => []
         case RawRow(data) => if data.Some? then data.value else []
  }

  function Lowered(listed: seq<Listed>): set<string> {
    set i | 0 <= i < |listed| :: Lower(listed[i].name)
  }

  lemma LoweredAppend(listed: seq<Listed>, file: Listed)
    ensures Lowered(listed + [file]) == Lowered(listed) + {Lower(file.name)}
  {
    var longer := listed + [file];
    assert longer[|listed|] == file;
    assert forall i :: 0 <= i < |listed| ==> longer[i] == listed[i];
  }

  /** Whether an entry is skipped, listed, or refused, given what is listed so far. */
  function Accept(listed: seq<Listed>, e: RawEntry): Result<seq<Listed>, ListingError> {
    if e.NotAnObject? || e.path.None? || e.isDirectory.None? then Err(UnexpectedShape)
    else if e.isDirectory.value || !HasExtension(e.path.value) then Ok(listed)
    else if e.size.None? || e.size.value < 0 then Err(InvalidSize)
    else if RemotePath(e.path.value).None? then Err(UnexpectedName)
    else if Lower(e.path.value) in Lowered(listed) then Err(RepeatedName)
    else Ok(listed + [Listed(e.path.value, e.size.value)])
  }

  /** The first refused entry decides the error. */
  function Listing(entries: seq<RawEntry>): Result<seq<Listed>, ListingError> {
    if entries == [] then Ok([])
    else
      match Listing(entries[..|entries| - 1])
      case Err(e) => Err(e)
      case Ok(listed) => Accept(listed, entries[|entries| - 1])
  }

  /** A listing without entries is refused, too. */
  function Parsed(rows: seq<RawRow>): Result<seq<Listed>, ListingError> {
    if Entries(rows) == [] then Err(NoEntries) else Listing(Entries(rows))
  }

  /** `parse_listing`. */
  method ParseListing(rows: seq<RawRow>) returns (r: Result<seq<Listed>, ListingError>)
    ensures r == Parsed(rows)
    ensures r.Ok? ==> Fetchable(r.value)
  {
    hide Lower, RemotePath, HasExtension, Lowered, Fetchable;
    NothingListed();
    var entries := [];
    for i := 0 to |rows|
      invariant entries == Entries(rows[..i])
    {
      assert rows[..i + 1][..i] == rows[..i];
      if rows[i].RawRow? && rows[i].data.Some? {
        entries := entries + rows[i].data.value;
      }
    }
    assert rows[..|rows|] == rows;
    if entries == [] {
      return Err(NoEntries);
    }
    var listed: seq<Listed>, seen: set<string> := [], {};
    for i := 0 to |entries|
      invariant Listing(entries[..i]) == Ok(listed)
      invariant seen == Lowered(listed)
      invariant Fetchable(listed)
    {
      assert entries[..i + 1][..i] == entries[..i];
      ListingStops(entries, i + 1);
      var e := entries[i];
      if e.NotAnObject? || e.path.None? || e.isDirectory.None? {
        return Err(UnexpectedShape);
      }
      var name := e.path.value;
      if !e.isDirectory.value && HasExtension(name) {
        if e.size.None? || e.size.value < 0 {
          return Err(InvalidSize);
        }
        if RemotePath(name).None? {
          return Err(UnexpectedName);
        }
        if Lower(name) in seen {
          return Err(RepeatedName);
        }
        FetchableAppend(listed, Listed(name, e.size.value));
        LoweredAppend(listed, Listed(name, e.size.value));
        seen := seen + {Lower(name)};
        listed := listed + [Listed(name, e.size.value)];
      }
    }
    assert entries[..|entries|] == entries;
    return Ok(listed);
  }

  lemma NothingListed()
    ensures Lowered([]) == {} && Fetchable([])
  {
  }

  lemma FetchableAppend(listed: seq<Listed>, file: Listed)
    requires Fetchable(listed) && RemotePath(file.name).Some? && file.size >= 0
    requires Lower(file.name) !in Lowered(listed)
    ensures Fetchable(listed + [file])
  {
    var longer := Names(listed + [file]);
    forall i, j | 0 <= i < j < |longer| ensures Lower(longer[i]) != Lower(longer[j]) {
      assert longer[i] == listed[i].name;
      if j < |listed| {
        assert Names(listed)[i] == longer[i] && Names(listed)[j] == longer[j];
      }
    }
  }

  lemma {:induction false} ListingStops(entries: seq<RawEntry>, k: nat)
    requires k <= |entries|
    ensures Listing(entries[..k]).Err? ==> Listing(entries) == Listing(entries[..k])
  {
    if k == |entries| {
      assert entries[..k] == entries;
    } else {
      assert entries[..|entries| - 1][..k] == entries[..k];
      ListingStops(entries[..|entries| - 1], k);
    }
  }

  // ------------------------------------------------------------------- selection

  datatype Status =
    | Planned          // nothing has been sent for this row
    | OutcomeUnknown   // the submission may or may not have reached the service
    | Accepted         // follow its command ID; never resubmit
    | Completed
    | Failed
    | Absent
    | SkippedMinBytes
    | SkippedMaxBytes

  predicate Deliberate(s: Status) {
    s.Completed? || s.Absent? || s.SkippedMinBytes? || s.SkippedMaxBytes?
  }

  /** The read-only commands that follow an accepted job: its ID and its download cap. */
  datatype Recovery = Recovery(commandId: string, cap: int)

  datatype LogRow = LogRow(
    log: string,
    remotePath: Option<Remote>,
    listedBytes: Option<int>,
    status: Status,
    commandId: Option<string>,
    bytes: Option<int>,
    error: Option<string>,
    recovery: Option<Recovery>)

  function FreshRow(log: string, remotePath: Option<Remote>, listedBytes: Option<int>,
                    status: Status, error: Option<string>): LogRow {
    LogRow(log, remotePath, listedBytes, status, None, None, error, None)
  }

  function RowFor(file: Listed, minBytes: int, maxBytes: int): LogRow {
    if file.size < minBytes then
      FreshRow(Stem(file.name), RemotePath(file.name), Some(file.size), SkippedMinBytes,
               Some("listed size below --min-bytes"))
    else if file.size > maxBytes then
      FreshRow(Stem(file.name), RemotePath(file.name), Some(file.size), SkippedMaxBytes,
               Some("listed size above --max-bytes"))
    else FreshRow(Stem(file.name), RemotePath(file.name), Some(file.size), Planned, None)
  }

  function AbsentRow(stem: string): LogRow {
    FreshRow(stem, None, None, Absent, None)
  }

  function Insert(files: seq<Listed>, file: Listed): (r: seq<Listed>)
    ensures multiset(r) == multiset(files) + multiset{file}
  {
    if files == [] || LexLeq(Lower(file.name), Lower(files[0].name)) then [file] + files
    else
      assert files == [files[0]] + files[1..];
      [files[0]] + Insert(files[1..], file)
  }

  function SortedByName(files: seq<Listed>): (r: seq<Listed>)
    ensures multiset(r) == multiset(files)
  {
    if files == [] then []
    else
      assert files == [files[0]] + files[1..];
      Insert(SortedByName(files[1..]), files[0])
  }

  predicate InNameOrder(files: seq<Listed>) {
    forall i, j :: 0 <= i < j < |files| ==> LexLeq(Lower(files[i].name), Lower(files[j].name))
  }

  lemma {:induction false} InsertOrdered(files: seq<Listed>, file: Listed)
    requires InNameOrder(files)
    ensures InNameOrder(Insert(files, file))
    ensures forall g :: g in Insert(files, file) ==> g == file || g in files
  {
    var key := Lower(file.name);
    if files != [] {
      LexTotal(key, Lower(files[0].name));
      if LexLeq(key, Lower(files[0].name)) {
        forall j | 0 <= j < |files| ensures LexLeq(key, Lower(files[j].name)) {
          if j > 0 {
            LexTransitive(key, Lower(files[0].name), Lower(files[j].name));
          }
        }
      } else {
        InsertOrdered(files[1..], file);
        var tail := Insert(files[1..], file);
        forall j | 0 <= j < |tail| ensures LexLeq(Lower(files[0].name), Lower(tail[j].name)) {
          if tail[j] != file {
            assert tail[j] in tail && tail[j] in files[1..];
            var k :| 0 <= k < |files[1..]| && files[1..][k] == tail[j];
            assert files[k + 1] == tail[j];
          }
        }
      }
    }
  }

  lemma {:induction false} SortedIsOrdered(files: seq<Listed>)
    ensures InNameOrder(SortedByName(files))
  {
    if files != [] {
      SortedIsOrdered(files[1..]);
      InsertOrdered(SortedByName(files[1..]), files[0]);
    }
  }

  /** Some listed file has this stem, ignoring case. */
  predicate IsListed(listed: seq<Listed>, stem: string) {
    exists i :: 0 <= i < |listed| && Lower(Stem(listed[i].name)) == Lower(stem)
  }

  /** The requested stems that are not listed, in the order of the request, as often as
      they were requested. */
  function AbsentOf(listed: seq<Listed>, logs: seq<string>): seq<string> {
    if logs == [] then []
    else
      var last := logs[|logs| - 1];
      AbsentOf(listed, logs[..|logs| - 1]) + if IsListed(listed, last) then [] else [last]
  }

  /** The file is the one that this stem asks for. */
  predicate Asks(stem: string, file: Listed) {
    Lower(Stem(file.name)) == Lower(stem)
  }

  /** File `j` is asked for by request `n`, none of the following by that time. */
  predicate AskedAt(logs: seq<string>, chosen: seq<Listed>, j: nat, n: nat)
    requires j < |chosen| && n < |logs|
  {
    Asks(logs[n], chosen[j]) && forall m, k :: 0 <= m <= n && j < k < |chosen| ==> !Asks(logs[m], chosen[k])
  }

  predicate AskedFirst(logs: seq<string>, chosen: seq<Listed>, j: nat)
    requires j < |chosen|
  {
    exists n :: 0 <= n < |logs| && AskedAt(logs, chosen, j, n)
  }

  /** Every chosen file has been asked for before the ones that follow it. */
  predicate InRequestOrder(logs: seq<string>, chosen: seq<Listed>) {
    forall j :: 0 <= j < |chosen| ==> AskedFirst(logs, chosen, j)
  }

  predicate DistinctPaths(rows: seq<LogRow>) {
    forall i, j :: 0 <= i < j < |rows| && rows[i].remotePath.Some? && rows[j].remotePath.Some? ==>
      Lower(rows[i].remotePath.value.basename) != Lower(rows[j].remotePath.value.basename)
  }

  /** What a selection must be: rows in order, absent ones first, each wanted file once. */
  ghost predicate Selection(listed: seq<Listed>, logs: seq<string>, includeAll: bool, minBytes: int, maxBytes: int,
                      absent: seq<string>, wanted: seq<Listed>, rows: seq<LogRow>) {
    && rows == seq(|absent|, i requires 0 <= i < |absent| => AbsentRow(absent[i]))
             + seq(|wanted|, i requires 0 <= i < |wanted| => RowFor(wanted[i], minBytes, maxBytes))
    && (forall i :: 0 <= i < |wanted| ==> wanted[i] in listed)
    && Distinct(wanted)
    && (includeAll ==> absent == [] && multiset(wanted) == multiset(listed) && InNameOrder(wanted))
    && (!includeAll ==>
         absent == AbsentOf(listed, logs) && InRequestOrder(logs, wanted) &&
         (forall f :: f in listed ==> (f in wanted <==> exists s :: s in logs && Asks(s, f))))
  }

  lemma NamesDecide(listed: seq<Listed>, f: Listed, g: Listed)
    requires Fetchable(listed) && f in listed && g in listed && Lower(f.name) == Lower(g.name)
    ensures f == g
  {
    var i :| 0 <= i < |listed| && listed[i] == f;
    var j :| 0 <= j < |listed| && listed[j] == g;
    assert Names(listed)[i] == f.name && Names(listed)[j] == g.name;
  }

  lemma StemsDecide(listed: seq<Listed>, f: Listed, g: Listed)
    requires Fetchable(listed) && f in listed && g in listed
    requires Lower(Stem(f.name)) == Lower(Stem(g.name))
    ensures f == g
  {
    var a, b := f.name, g.name;
    assert Lower(a) == Lower(Stem(a)) + Lower(a[|a| - 5..]);
    assert Lower(b) == Lower(Stem(b)) + Lower(b[|b| - 5..]);
    NamesDecide(listed, f, g);
  }

  lemma WantedPath(absent: seq<string>, wanted: seq<Listed>, minBytes: int, maxBytes: int, rows: seq<LogRow>, i: nat)
    requires rows == seq(|absent|, k requires 0 <= k < |absent| => AbsentRow(absent[k]))
                   + seq(|wanted|, k requires 0 <= k < |wanted| => RowFor(wanted[k], minBytes, maxBytes))
    requires i < |rows| && rows[i].remotePath.Some?
    ensures |absent| <= i && rows[i].remotePath == Some(InLogsFolder(wanted[i - |absent|].name))
  {
    if i >= |absent| {
      assert rows[i] == RowFor(wanted[i - |absent|], minBytes, maxBytes);
    }
  }

  /** Whatever is selected, no remote file appears twice. */
  lemma SelectionNeverRepeats(listed: seq<Listed>, logs: seq<string>, includeAll: bool, minBytes: int,
                              maxBytes: int, absent: seq<string>, wanted: seq<Listed>, rows: seq<LogRow>)
    requires Fetchable(listed)
    requires Selection(listed, logs, includeAll, minBytes, maxBytes, absent, wanted, rows)
    ensures DistinctPaths(rows)
  {
    forall i, j | 0 <= i < j < |rows| && rows[i].remotePath.Some? && rows[j].remotePath.Some?
      ensures Lower(rows[i].remotePath.value.basename) != Lower(rows[j].remotePath.value.basename)
    {
      WantedPath(absent, wanted, minBytes, maxBytes, rows, i);
      WantedPath(absent, wanted, minBytes, maxBytes, rows, j);
      var f, g := wanted[i - |absent|], wanted[j - |absent|];
      if Lower(f.name) == Lower(g.name) {
        NamesDecide(listed, f, g);
      }
    }
  }

  lemma PermutedIsDistinct(listed: seq<Listed>, sorted: seq<Listed>)
    requires Fetchable(listed) && multiset(sorted) == multiset(listed)
    ensures Distinct(sorted) && forall f :: f in sorted <==> f in listed
  {
    forall f ensures f in sorted <==> f in listed {
      assert f in multiset(sorted) <==> f in multiset(listed);
    }
    forall i, j | 0 <= i < j < |listed| ensures listed[i] != listed[j] {
      assert Names(listed)[i] == listed[i].name && Names(listed)[j] == listed[j].name;
    }
    forall i, j | 0 <= i < j < |sorted| ensures sorted[i] != sorted[j] {
      if sorted[i] == sorted[j] {
        TwiceInSequence(sorted, i, j);
        OnceInDistinct(listed, sorted[i]);
      }
    }
  }

  lemma TwiceInSequence<T>(s: seq<T>, i: nat, j: nat)
    requires i < j < |s| && s[i] == s[j]
    ensures multiset(s)[s[i]] >= 2
  {
    assert s == s[..j] + s[j..];
    assert s[i] in s[..j] && s[i] in s[j..];
    assert s[..j][i] == s[i] && s[j..][0] == s[j];
  }

  lemma {:induction false} OnceInDistinct<T>(s: seq<T>, x: T)
    requires Distinct(s)
    ensures multiset(s)[x] <= 1
  {
    if s != [] {
      OnceInDistinct(s[1..], x);
      assert s == [s[0]] + s[1..];
    }
  }

  lemma OrderStays(logs: seq<string>, stem: string, chosen: seq<Listed>)
    requires InRequestOrder(logs, chosen)
    ensures InRequestOrder(logs + [stem], chosen)
  {
    hide Asks;
    forall j | 0 <= j < |chosen| ensures AskedFirst(logs + [stem], chosen, j) {
      assert AskedFirst(logs, chosen, j);
      var n :| 0 <= n < |logs| && AskedAt(logs, chosen, j, n);
      assert AskedAt(logs + [stem], chosen, j, n);
    }
  }

  lemma OrderGrows(logs: seq<string>, stem: string, chosen: seq<Listed>, file: Listed)
    requires InRequestOrder(logs, chosen) && Asks(stem, file)
    requires forall m :: 0 <= m < |logs| ==> !Asks(logs[m], file)
    ensures InRequestOrder(logs + [stem], chosen + [file])
  {
    hide Asks;
    var all, files := logs + [stem], chosen + [file];
    forall j | 0 <= j < |files| ensures AskedFirst(all, files, j) {
      if j < |chosen| {
        assert AskedFirst(logs, chosen, j);
        var n :| 0 <= n < |logs| && AskedAt(logs, chosen, j, n);
        assert AskedAt(all, files, j, n);
      } else {
        assert AskedAt(all, files, j, |logs|);
      }
    }
  }

  lemma AbsentGrows(listed: seq<Listed>, logs: seq<string>, stem: string)
    ensures AbsentOf(listed, logs + [stem]) == AbsentOf(listed, logs) + if IsListed(listed, stem) then [] else [stem]
    ensures AbsentOf(listed, []) == [] && InRequestOrder([], [])
  {
    assert (logs + [stem])[..|logs|] == logs;
  }

  /** The explicit branch of `select`: each requested stem is absent or chosen once. */
  method Choose(listed: seq<Listed>, logs: seq<string>) returns (absent: seq<string>, chosen: seq<Listed>)
    requires Fetchable(listed)
    ensures absent == AbsentOf(listed, logs) && InRequestOrder(logs, chosen)
    ensures Distinct(chosen) && forall f :: f in chosen ==> f in listed
    ensures forall f :: f in listed ==> (f in chosen <==> exists s :: s in logs && Asks(s, f))
  {
    hide Lower, Stem, RemotePath, InRequestOrder, AbsentOf;
    AbsentGrows(listed, [], "");
    var byStem: map<string, Listed> := map[];
    for i := 0 to |listed|
      invariant forall j :: 0 <= j < i ==> Lower(Stem(listed[j].name)) in byStem
      invariant forall s :: s in byStem ==> byStem[s] in listed && Lower(Stem(byStem[s].name)) == s
    {
      byStem := byStem[Lower(Stem(listed[i].name)) := listed[i]];
    }
    absent, chosen := [], [];
    for i := 0 to |logs|
      invariant absent == AbsentOf(listed, logs[..i]) && InRequestOrder(logs[..i], chosen)
      invariant Distinct(chosen) && forall f :: f in chosen ==> f in listed
      invariant forall f :: f in listed ==>
        (f in chosen <==> exists s :: s in logs[..i] && Asks(s, f))
    {
      assert logs[..i + 1] == logs[..i] + [logs[i]];
      AbsentGrows(listed, logs[..i], logs[i]);
      OrderStays(logs[..i], logs[i], chosen);
      var key := Lower(logs[i]);
      if key !in byStem {
        absent := absent + [logs[i]];
        assert !IsListed(listed, logs[i]);
      } else {
        var file := byStem[key];
        ListedBy(listed, file, logs[i]);
        if file !in chosen {
          OrderGrows(logs[..i], logs[i], chosen, file);
          chosen := chosen + [file];
        }
      }
    }
    assert logs[..|logs|] == logs;
  }

  lemma ListedBy(listed: seq<Listed>, file: Listed, stem: string)
    requires Fetchable(listed) && file in listed && Lower(Stem(file.name)) == Lower(stem)
    ensures IsListed(listed, stem)
    ensures forall f :: f in listed ==> (Lower(Stem(f.name)) == Lower(stem) <==> f == file)
  {
    forall f | f in listed && Lower(Stem(f.name)) == Lower(stem) ensures f == file {
      StemsDecide(listed, f, file);
    }
  }

  /** `select`. */
  method Select(listed: seq<Listed>, logs: seq<string>, includeAll: bool, minBytes: int, maxBytes: int)
    returns (rows: seq<LogRow>, ghost absent: seq<string>, ghost wanted: seq<Listed>)
    requires Fetchable(listed)
    ensures Selection(listed, logs, includeAll, minBytes, maxBytes, absent, wanted, rows)
    ensures DistinctPaths(rows)
  {
    hide Lower, Stem, RemotePath, AbsentRow, RowFor;
    var missing: seq<string>, chosen: seq<Listed> := [], [];
    if includeAll {
      chosen := SortedByName(listed);
      PermutedIsDistinct(listed, chosen);
      SortedIsOrdered(listed);
    } else {
      missing, chosen := Choose(listed, logs);
    }
    absent, wanted := missing, chosen;
    rows := [];
    for i := 0 to |missing|
      invariant rows == seq(i, k requires 0 <= k < i => AbsentRow(missing[k]))
    {
      rows := rows + [AbsentRow(missing[i])];
    }
    ghost var head := rows;
    for i := 0 to |chosen|
      invariant rows == head + seq(i, k requires 0 <= k < i => RowFor(chosen[k], minBytes, maxBytes))
    {
      rows := rows + [RowFor(chosen[i], minBytes, maxBytes)];
    }
    SelectionNeverRepeats(listed, logs, includeAll, minBytes, maxBytes, absent, wanted, rows);
  }

  // ------------------------------------------------------- what a listing accepts

  /** An entry that names a file with the extension of an event log. */
  predicate IsFile(e: RawEntry) {
    e.RawEntry? && e.path.Some? && e.isDirectory == Some(false) && HasExtension(e.path.value)
  }

  /** The event logs of a listing, in its order. */
  function Files(entries: seq<RawEntry>): seq<Listed> {
    if entries == [] then []
    else
      var e := entries[|entries| - 1];
      Files(entries[..|entries| - 1]) + if IsFile(e) && e.size.Some? then [Listed(e.path.value, e.size.value)] else []
  }

  /** The last five characters, in any case of their letters. */
  lemma ExtensionIs(name: string)
    ensures HasExtension(name) <==>
      && |name| >= 5 && name[|name| - 5] == '.'
      && name[|name| - 4] in "eE" && name[|name| - 3] in "vV" && name[|name| - 2] in "tT" && name[|name| - 1] in "xX"
  {
    if |name| >= 5 {
      var end := name[|name| - 5..];
      assert end == [end[0], end[1], end[2], end[3], end[4]];
      assert Lower(end) == [LowerChar(end[0]), LowerChar(end[1]), LowerChar(end[2]), LowerChar(end[3]), LowerChar(end[4])];
      assert ".evtx" == ['.', 'e', 'v', 't', 'x'];
    }
  }

  /** A name that can be fetched: a letter or digit, up to 250 further characters of the
      channel names, the extension, and no two dots in a row. */
  lemma NameIs(name: string)
    ensures RemotePath(name).Some? <==>
      && HasExtension(name) && 6 <= |name| <= 256
      && (48 <= name[0] as int <= 57 || 65 <= name[0] as int <= 90 || 97 <= name[0] as int <= 122)
      && (forall i :: 1 <= i < |name| - 5 ==>
            || 48 <= name[i] as int <= 57 || 65 <= name[i] as int <= 90 || 97 <= name[i] as int <= 122
            || name[i] as int in {32, 37, 40, 41, 43, 44, 45, 46, 95})
      && (forall i :: 1 <= i < |name| ==> !(name[i - 1] as int == 46 && name[i] as int == 46))
    ensures RemotePath(name).Some? ==> RemotePath(name).value.basename == name && Stem(name) == name[..|name| - 5]
  {
    hide HasExtension;
    if RemotePath(name).None? && IsBasename(name) {
      var i :| 0 <= i < |name| - 1 && name[i] == '.' && name[i + 1] == '.';
      assert name[i + 1 - 1] as int == 46 && name[i + 1] as int == 46;
    }
    if IsBasename(name) && exists i :: 1 <= i < |name| && name[i - 1] as int == 46 && name[i] as int == 46 {
      var i :| 1 <= i < |name| && name[i - 1] as int == 46 && name[i] as int == 46;
      assert name[i - 1] == '.' && name[i - 1 + 1] == '.';
    }
  }

  /** A listing is accepted exactly if every entry is readable, every event log in it has a
      size and a name that can be fetched, and no name repeats in another case; what is
      listed are then these files, in order, and nothing else. */
  lemma {:induction false} ListingIs(entries: seq<RawEntry>)
    ensures Listing(entries).Ok? <==>
      && (forall i :: 0 <= i < |entries| ==> entries[i].RawEntry? && entries[i].path.Some? && entries[i].isDirectory.Some?)
      && (forall i :: 0 <= i < |entries| && IsFile(entries[i]) ==>
            entries[i].size.Some? && entries[i].size.value >= 0 && RemotePath(entries[i].path.value).Some?)
      && DistinctNames(Names(Files(entries)))
    ensures Listing(entries).Ok? ==> Listing(entries).value == Files(entries)
  {
    hide HasExtension, RemotePath, Lower, DistinctNames, Lowered, Names;
    if entries == [] {
      NothingRepeats();
    } else {
      var rest, e := entries[..|entries| - 1], entries[|entries| - 1];
      ListingIs(rest);
      assert entries[|rest|] == e && forall i :: 0 <= i < |rest| ==> entries[i] == rest[i];
      if e.RawEntry? && e.path.Some? {
        NamesAppend(Files(rest), Listed(e.path.value, e.size.GetOr(0)));
      }
      if Listing(rest).Ok? {
        assert Lowered(Files(rest)) == Lowered(Listing(rest).value);
        if e.NotAnObject? || e.path.None? || e.isDirectory.None? {
          assert Listing(entries).Err?;
        } else if !IsFile(e) {
          assert Listing(entries).Ok? && Files(entries) == Files(rest) + [] == Files(rest);
        } else if e.size.None? || e.size.value < 0 || RemotePath(e.path.value).None? {
          assert Listing(entries).Err?;
        } else {
          assert Files(entries) == Files(rest) + [Listed(e.path.value, e.size.value)];
        }
      } else {
        assert Listing(entries).Err?;
        if IsFile(e) && e.size.Some? {
          assert Files(entries) == Files(rest) + [Listed(e.path.value, e.size.value)];
        } else {
          assert Files(entries) == Files(rest) + [] == Files(rest);
        }
      }
    }
  }

  lemma NothingRepeats()
    ensures DistinctNames(Names([]))
  {
  }

  lemma NamesAppend(listed: seq<Listed>, file: Listed)
    ensures DistinctNames(Names(listed + [file])) <==> DistinctNames(Names(listed)) && Lower(file.name) !in Lowered(listed)
  {
    hide Lower;
    var longer := listed + [file];
    assert Names(longer) == Names(listed) + [file.name];
    assert forall i :: 0 <= i < |listed| ==> Names(longer)[i] == listed[i].name;
    if DistinctNames(Names(longer)) {
      forall i | 0 <= i < |listed| ensures Lower(listed[i].name) != Lower(file.name) {
        assert Lower(Names(longer)[i]) != Lower(Names(longer)[|listed|]);
      }
      forall i, j | 0 <= i < j < |listed| ensures Lower(Names(listed)[i]) != Lower(Names(listed)[j]) {
        assert Lower(Names(longer)[i]) != Lower(Names(longer)[j]);
      }
    }
  }

  /** A listed file is planned exactly within the bounds, both included. */
  lemma RowIs(file: Listed, minBytes: int, maxBytes: int)
    ensures var row := RowFor(file, minBytes, maxBytes);
            && row.log == Stem(file.name) && row.remotePath == RemotePath(file.name) && row.listedBytes == Some(file.size)
            && row.commandId.None? && row.bytes.None? && row.recovery.None?
            && (row.status.Planned? <==> minBytes <= file.size <= maxBytes)
            && (row.status.SkippedMinBytes? <==> file.size < minBytes)
            && (row.status.SkippedMaxBytes? <==> minBytes <= file.size && maxBytes < file.size)
            && (row.error == if row.status.Planned? then None
                             else if file.size < minBytes then Some("listed size below --min-bytes")
                             else Some("listed size above --max-bytes"))
  {
  }
}
