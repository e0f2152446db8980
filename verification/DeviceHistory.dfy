/**
  Device action history (`device_management.py`): two paging loops that claim
  completeness against a server that may answer anything and change between pages.
  A server is a function from the request it is answering; nothing is assumed of it.
*/
module DeviceHistory {
  import opened Common

  // ------------------------------------------------------------------- the rows

  /** A decoded row. `machine` is `None` where it is not text; `id` is the text of a
      string or integer action ID and `None` for any other type. */
  datatype Row = NotARow | Row(machine: Option<string>, id: Option<string>)

  /** `str(row["ActionId"]).lower()`. */
  function Identity(row: Row): string {
    if row.Row? && row.id.Some? then Lower(row.id.value) else ""
  }

  predicate Belongs(row: Row, machine: string) {
    && row.Row? && row.machine.Some? && Lower(row.machine.value) == Lower(machine)
    && row.id.Some? && row.id.value != ""
  }

  predicate AllBelong(rows: seq<Row>, machine: string) {
    forall i :: 0 <= i < |rows| ==> Belongs(rows[i], machine)
  }

  predicate DistinctActions(rows: seq<Row>) {
    forall i, j :: 0 <= i < j < |rows| ==> Identity(rows[i]) != Identity(rows[j])
  }

  function Identities(rows: seq<Row>): set<string> {
    if rows == [] then {} else Identities(rows[..|rows| - 1]) + {Identity(rows[|rows| - 1])}
  }

  lemma {:induction false} IdentitiesAre(rows: seq<Row>, id: string)
    ensures id in Identities(rows) <==> exists i :: 0 <= i < |rows| && Identity(rows[i]) == id
  {
    if rows != [] {
      IdentitiesAre(rows[..|rows| - 1], id);
      assert rows == rows[..|rows| - 1] + [rows[|rows| - 1]];
    }
  }

  /** `yielded` after one more row: known actions and rows past the limit are not added. */
  function Add(yielded: seq<Row>, row: Row, limit: int): seq<Row> {
    if Identity(row) in Identities(yielded) || |yielded| >= limit then yielded else yielded + [row]
  }

  function AddAll(yielded: seq<Row>, rows: seq<Row>, limit: int): seq<Row>
    decreases rows
  {
    if rows == [] then yielded else AddAll(Add(yielded, rows[0], limit), rows[1..], limit)
  }

  /** Reference: the first `limit` distinct actions of what was served, in order. */
  function FirstDistinct(rows: seq<Row>, limit: int): seq<Row> {
    AddAll([], rows, limit)
  }

  lemma {:induction false} AddAllSplits(yielded: seq<Row>, a: seq<Row>, b: seq<Row>, limit: int)
    ensures AddAll(yielded, a + b, limit) == AddAll(AddAll(yielded, a, limit), b, limit)
    decreases a
  {
    if a == [] {
      assert a + b == b;
    } else {
      assert (a + b)[0] == a[0] && (a + b)[1..] == a[1..] + b;
      AddAllSplits(Add(yielded, a[0], limit), a[1..], b, limit);
    }
  }

  lemma {:induction false} FullStaysFull(yielded: seq<Row>, rows: seq<Row>, limit: int)
    requires |yielded| >= limit
    ensures AddAll(yielded, rows, limit) == yielded
    decreases rows
  {
    if rows != [] {
      FullStaysFull(yielded, rows[1..], limit);
    }
  }

  lemma IdentitiesAppend(rows: seq<Row>, row: Row)
    ensures Identities(rows + [row]) == Identities(rows) + {Identity(row)}
  {
    assert (rows + [row])[..|rows + [row]| - 1] == rows;
  }

  lemma DistinctAppend(rows: seq<Row>, row: Row)
    requires DistinctActions(rows) && Identity(row) !in Identities(rows)
    ensures DistinctActions(rows + [row])
  {
    IdentitiesAre(rows, Identity(row));
  }

  /** No row repeats an action already yielded or an earlier row. */
  predicate Fresh(yielded: seq<Row>, rows: seq<Row>)
    decreases rows
  {
    rows == [] || (Identity(rows[0]) !in Identities(yielded) && Fresh(yielded + [rows[0]], rows[1..]))
  }

  lemma NextIsNew(yielded: seq<Row>, rows: seq<Row>)
    requires rows != [] && DistinctActions(yielded + rows)
    ensures Identity(rows[0]) !in Identities(yielded)
  {
    hide Identity;
    IdentitiesAre(yielded, Identity(rows[0]));
    var all := yielded + rows;
    assert all[|yielded|] == rows[0];
    assert forall k :: 0 <= k < |yielded| ==> all[k] == yielded[k];
  }

  lemma {:induction false} DistinctIsFresh(yielded: seq<Row>, rows: seq<Row>)
    requires DistinctActions(yielded + rows)
    ensures Fresh(yielded, rows)
    decreases rows
  {
    hide DistinctActions, Identity, Identities;
    if rows != [] {
      NextIsNew(yielded, rows);
      assert yielded + [rows[0]] + rows[1..] == yielded + rows;
      DistinctIsFresh(yielded + [rows[0]], rows[1..]);
    }
  }

  /** Rows that repeat nothing are all added, up to the limit. */
  lemma {:induction false} FreshRowsAreAdded(yielded: seq<Row>, rows: seq<Row>, limit: int)
    requires Fresh(yielded, rows) && |yielded| <= limit
    ensures AddAll(yielded, rows, limit) == (yielded + rows)[..Min(|yielded| + |rows|, limit)]
    decreases rows
  {
    if rows == [] {
      assert yielded + rows == yielded;
    } else if |yielded| == limit {
      FullStaysFull(yielded, rows, limit);
      assert (yielded + rows)[..|yielded|] == yielded;
    } else {
      assert yielded + rows == yielded + [rows[0]] + rows[1..];
      FreshRowsAreAdded(yielded + [rows[0]], rows[1..], limit);
    }
  }

  // ---------------------------------------------------------------- the two portals

  const MAX_PAGES := 100
  const MAX_LIMIT := 10000

  datatype Count = NoCount | InvalidCount | Count(n: nat)

  datatype Results = Missing | Single(row: Row) | Many(rows: seq<Row>) | OtherShape

  datatype PortalPage = RequestFails | NotACollection | Page(count: Count, results: Results)

  datatype Reason =
    | LimitReached | CountSatisfied | CountShrank | CountUnavailable | CountNotReconciled
    | RepeatedPage | CountChanged | DuplicateActions | PageBoundReached
    | ShortPage | ContinuationUnfollowed | RepeatedAction

  datatype Coverage = Coverage(
    nativeCount: Option<nat>, counts: set<nat>, returned: nat, duplicates: nat,
    pages: nat, complete: bool, reason: Reason)

  /** How a run ends: with its coverage row as the last row, or with an error. */
  datatype End = Covered(coverage: Coverage) | Raises

  function RowsOf(page: PortalPage): seq<Row> {
    if !page.Page? then [] else
    match page.results
    case Missing => []
    case Single(row) => [row]
    case Many(rows) => rows
    case OtherShape => []
  }

  /** Everything the first `pages` pages served, in order. */
  function Served(server: nat -> PortalPage, pages: nat): seq<Row> {
    if pages == 0 then [] else Served(server, pages - 1) + RowsOf(server(pages))
  }

  /** The page passes the checks of the portal loop. */
  predicate Acceptable(page: PortalPage, pageSize: int) {
    && page.Page?
    && !page.count.InvalidCount?
    && !page.results.OtherShape?
    && (page.results.Missing? ==> page.count == Count(0))
    && |RowsOf(page)| <= pageSize
    && (page.count.Count? ==> page.count.n >= |RowsOf(page)|)
  }

  /** Rows on the pages before page `p + 1`. */
  function Skip(p: nat, pageSize: nat): nat {
    if p == 0 then 0 else Skip(p - 1, pageSize) + pageSize
  }

  function PageOf(list: seq<Row>, p: nat, pageSize: nat): seq<Row>
    requires p >= 1
  {
    list[Min(Skip(p - 1, pageSize), |list|)..Min(Skip(p, pageSize), |list|)]
  }

  /** A server that pages one unchanging list and reports its length. */
  ghost predicate PagesList(server: nat -> PortalPage, list: seq<Row>, pageSize: nat) {
    forall p: nat :: p >= 1 ==> server(p) == Page(Count(|list|), Many(PageOf(list, p, pageSize)))
  }

  lemma BelongAppend(rows: seq<Row>, row: Row, machine: string)
    requires AllBelong(rows, machine) && Belongs(row, machine)
    ensures AllBelong(rows + [row], machine)
  {
  }

  lemma NoneBelong(machine: string)
    ensures AllBelong([], machine)
  {
  }

  lemma ForeignRow(rows: seq<Row>, i: nat, machine: string)
    requires i < |rows| && !Belongs(rows[i], machine)
    ensures !AllBelong(rows, machine)
  {
  }

  /** One more action of the device that was not yet known. */
  lemma NewAction(yielded: seq<Row>, rest: seq<Row>, machine: string)
    requires rest != [] && Belongs(rest[0], machine) && Identity(rest[0]) !in Identities(yielded)
    requires DistinctActions(yielded) && AllBelong(yielded, machine)
    ensures var next := yielded + [rest[0]];
            && Identities(next) == Identities(yielded) + {Identity(rest[0])}
            && |Identities(next)| == |Identities(yielded)| + 1
            && DistinctActions(next) && AllBelong(next, machine)
            && next + rest[1..] == yielded + rest
  {
    hide Identity, Belongs, Identities, DistinctActions, AllBelong;
    IdentitiesAppend(yielded, rest[0]);
    DistinctAppend(yielded, rest[0]);
    BelongAppend(yielded, rest[0], machine);
    assert yielded + rest == yielded + [rest[0]] + rest[1..];
  }

  /** Row `k` is the first that is not of this device; those before it were yielded. */
  predicate BreaksAt(before: seq<Row>, rows: seq<Row>, machine: string, limit: int, k: nat, yielded: seq<Row>)
    requires k < |rows|
  {
    !Belongs(rows[k], machine) && AllBelong(rows[..k], machine) && yielded == AddAll(before, rows[..k], limit)
  }

  lemma AddOne(yielded: seq<Row>, rows: seq<Row>, row: Row, limit: int)
    ensures AddAll(yielded, rows + [row], limit) == Add(AddAll(yielded, rows, limit), row, limit)
  {
    AddAllSplits(yielded, rows, [row], limit);
    assert [row][1..] == [];
  }

  lemma NothingAddedTo(yielded: seq<Row>, limit: int)
    ensures AddAll(yielded, [], limit) == yielded
  {
  }

  /** The rows of one page: skip known actions, stop before the limit is exceeded. */
  method ConsumePage(rows: seq<Row>, machine: string, limit: nat, seen0: set<string>, yielded0: seq<Row>)
    returns (ok: bool, seen: set<string>, yielded: seq<Row>, duplicates: nat)
    requires seen0 == Identities(yielded0) && |seen0| == |yielded0| <= limit
    requires DistinctActions(yielded0) && AllBelong(yielded0, machine)
    ensures seen == Identities(yielded) && |yielded0| <= |seen| == |yielded| <= limit
    ensures DistinctActions(yielded) && AllBelong(yielded, machine)
    ensures AllBelong(rows, machine) ==> ok
    ensures ok ==> yielded == AddAll(yielded0, rows, limit)
    ensures ok && duplicates == 0 ==> yielded <= yielded0 + rows
    ensures ok && duplicates == 0 && |yielded| < limit ==> yielded == yielded0 + rows
    ensures Fresh(yielded0, rows) ==> duplicates == 0
    // every row read is yielded or counted as a duplicate; only the limit leaves rows unread
    ensures |yielded| + duplicates <= |yielded0| + |rows|
    ensures ok && |yielded| < limit ==> |yielded| + duplicates == |yielded0| + |rows|
    ensures ok && |yielded| + duplicates == |yielded0| + |rows| ==> AllBelong(rows, machine)
    // the first foreign row ends it
    ensures !ok ==> exists k :: 0 <= k < |rows| && BreaksAt(yielded0, rows, machine, limit, k, yielded)
  {
    hide Identity, Belongs, Identities, DistinctActions, AllBelong;
    seen, yielded, duplicates := seen0, yielded0, 0;
    NoneBelong(machine);
    NothingAddedTo(yielded0, limit);
    ghost var all := yielded0 + rows;
    for i := 0 to |rows|
      invariant AddAll(yielded, rows[i..], limit) == AddAll(yielded0, rows, limit)
      invariant seen == Identities(yielded) && |yielded0| <= |seen| == |yielded| <= limit
      invariant DistinctActions(yielded) && AllBelong(yielded, machine)
      invariant duplicates == 0 ==> all == yielded + rows[i..]
      invariant duplicates == 0 ==> Fresh(yielded, rows[i..]) == Fresh(yielded0, rows)
      invariant duplicates > 0 ==> !Fresh(yielded0, rows)
      invariant |yielded| + duplicates == |yielded0| + i && AllBelong(rows[..i], machine)
      invariant yielded == AddAll(yielded0, rows[..i], limit)
    {
      var row, rest := rows[i], rows[i..];
      assert rows[..i + 1] == rows[..i] + [row];
      if !Belongs(row, machine) {
        ForeignRow(rows, i, machine);
        assert BreaksAt(yielded0, rows, machine, limit, i, yielded);
        return false, seen, yielded, duplicates;
      }
      assert rest[0] == row && rest[1..] == rows[i + 1..];
      BelongAppend(rows[..i], row, machine);
      AddOne(yielded0, rows[..i], row, limit);
      if Identity(row) in seen {
        duplicates := duplicates + 1;
      } else if |seen| >= limit {
        FullStaysFull(yielded, rest, limit);
        return true, seen, yielded, duplicates;
      } else {
        NewAction(yielded, rest, machine);
        seen := seen + {Identity(row)};
        yielded := yielded + [row];
      }
    }
    assert rows[..|rows|] == rows;
    return true, seen, yielded, duplicates;
  }

  // ------------------------------------------------------------- portal history

  /** The count a page reports. */
  function ReportedBy(page: PortalPage): Option<nat> {
    if page.Page? && page.count.Count? then Some(page.count.n) else None
  }

  predicate AllReport(server: nat -> PortalPage, pages: nat, n: nat) {
    forall p :: 1 <= p <= pages ==> ReportedBy(server(p)) == Some(n)
  }

  predicate AllCounted(server: nat -> PortalPage, pages: nat) {
    pages == 0 || (AllCounted(server, pages - 1) && ReportedBy(server(pages)).Some?)
  }

  function CountsSeen(server: nat -> PortalPage, pages: nat): set<nat> {
    if pages == 0 then {}
    else
      var count := ReportedBy(server(pages));
      CountsSeen(server, pages - 1) + if count.Some? then {count.value} else {}
  }

  lemma {:induction false} CountsSeenAre(server: nat -> PortalPage, pages: nat, n: nat)
    ensures n in CountsSeen(server, pages) <==> exists p :: 1 <= p <= pages && ReportedBy(server(p)) == Some(n)
  {
    if pages > 0 {
      CountsSeenAre(server, pages - 1, n);
      if exists p :: 1 <= p <= pages && ReportedBy(server(p)) == Some(n) && p != pages {
        var p :| 1 <= p <= pages && ReportedBy(server(p)) == Some(n) && p != pages;
        assert p <= pages - 1;
      }
    }
  }

  lemma {:induction false} AllCountedAre(server: nat -> PortalPage, pages: nat)
    ensures AllCounted(server, pages) <==> forall p :: 1 <= p <= pages ==> ReportedBy(server(p)).Some?
  {
    if pages > 0 {
      AllCountedAre(server, pages - 1);
    }
  }

  /** The three counters of the loop decide whether every page reported the same count. */
  lemma CountsDecide(server: nat -> PortalPage, pages: nat, n: nat)
    requires pages >= 1
    ensures AllReport(server, pages, n) <==>
            AllCounted(server, pages) && |CountsSeen(server, pages)| == 1 && ReportedBy(server(1)) == Some(n)
    ensures AllReport(server, pages, n) ==> ReportedBy(server(pages)) == Some(n)
  {
    var counts := CountsSeen(server, pages);
    AllCountedAre(server, pages);
    if AllCounted(server, pages) && |counts| == 1 && ReportedBy(server(1)) == Some(n) {
      forall p | 1 <= p <= pages ensures ReportedBy(server(p)) == Some(n) {
        var m := ReportedBy(server(p)).value;
        CountsSeenAre(server, pages, m);
        CountsSeenAre(server, pages, n);
        OnlyMember(counts, n, m);
      }
    }
    if AllReport(server, pages, n) {
      assert ReportedBy(server(1)) == Some(n);
      forall m ensures m in counts <==> m == n {
        CountsSeenAre(server, pages, m);
      }
      assert counts == {n};
    }
  }

  lemma OnlyMember(s: set<nat>, a: nat, b: nat)
    requires |s| == 1 && a in s && b in s
    ensures a == b
  {
    var rest := s - {a};
    assert |rest| == 0;
  }

  lemma {:induction false} SkipIsProduct(p: nat, pageSize: nat)
    ensures Skip(p, pageSize) == p * pageSize
  {
    if p > 0 {
      SkipIsProduct(p - 1, pageSize);
    }
  }

  /** The page after `pages` full pages of a fixed list of distinct actions. */
  lemma FixedPage(server: nat -> PortalPage, list: seq<Row>, pageSize: nat, pages: nat, machine: string, limit: nat)
    requires PagesList(server, list, pageSize) && DistinctActions(list) && AllBelong(list, machine)
    requires Skip(pages, pageSize) < limit && Skip(pages, pageSize) <= |list|
    ensures Acceptable(server(pages + 1), pageSize) && ReportedBy(server(pages + 1)) == Some(|list|)
    ensures var rows := RowsOf(server(pages + 1));
            && AllBelong(rows, machine) && |rows| == Min(pageSize, |list| - Skip(pages, pageSize))
            && Fresh(list[..Skip(pages, pageSize)], rows)
            && AddAll(list[..Skip(pages, pageSize)], rows, limit) == list[..Min(Min(Skip(pages + 1, pageSize), |list|), limit)]
  {
    var rows := PageOf(list, pages + 1, pageSize);
    assert server(pages + 1) == Page(Count(|list|), Many(rows));
    SliceOfDistinct(list, Skip(pages, pageSize), rows, limit);
  }

  lemma SliceOfDistinct(list: seq<Row>, k: nat, rows: seq<Row>, limit: nat)
    requires DistinctActions(list) && k <= |list| && k <= limit && k + |rows| <= |list|
    requires rows == list[k..k + |rows|]
    ensures Fresh(list[..k], rows) && AddAll(list[..k], rows, limit) == list[..Min(k + |rows|, limit)]
  {
    var next := list[..k + |rows|];
    assert list[..k] + rows == next;
    DistinctIsFresh(list[..k], rows);
    FreshRowsAreAdded(list[..k], rows, limit);
    assert next[..Min(k + |rows|, limit)] == list[..Min(k + |rows|, limit)];
  }

  /** What one page does to the run: it fails it, stops it or lets it go on. */
  datatype Verdict = Refuses | Stops(reason: Reason) | GoesOn

  /** Why the page after which `n` actions are yielded ends the run; `before` were yielded
      before it. */
  predicate Explains(reason: Reason, page: PortalPage, before: nat, n: nat, limit: nat, pageSize: nat) {
    var count := ReportedBy(page);
    match reason
    case CountSatisfied => count == Some(n)
    case CountShrank => count.Some? && count.value < n
    case LimitReached => n >= limit && (count.Some? ==> count.value > n)
    case CountUnavailable => n < limit && |RowsOf(page)| < pageSize && count.None?
    case CountNotReconciled => n < limit && |RowsOf(page)| < pageSize && count.Some? && count.value > n
    case RepeatedPage => n == before && n < limit && |RowsOf(page)| == pageSize && (count.Some? ==> count.value > n)
    case _ => false
  }

  /** The page cannot be used, and nothing of it is yielded; or it can, but for its first
      foreign row. */
  predicate Fails(before: seq<Row>, page: PortalPage, machine: string, limit: int, pageSize: int, yielded: seq<Row>) {
    if !Acceptable(page, pageSize) then yielded == before
    else exists k :: 0 <= k < |RowsOf(page)| && BreaksAt(before, RowsOf(page), machine, limit, k, yielded)
  }

  /** The checks and the row loop of one page, and the tests that decide whether to go on. */
  method ReadPage(value: PortalPage, machine: string, limit: nat, pageSize: nat,
                  seen0: set<string>, yielded0: seq<Row>)
    returns (verdict: Verdict, seen: set<string>, yielded: seq<Row>, repeated: nat)
    requires seen0 == Identities(yielded0) && |seen0| == |yielded0| <= limit
    requires DistinctActions(yielded0) && AllBelong(yielded0, machine)
    ensures seen == Identities(yielded) && |yielded0| <= |seen| == |yielded| <= limit
    ensures DistinctActions(yielded) && AllBelong(yielded, machine)
    ensures verdict.Refuses? ==> Fails(yielded0, value, machine, limit, pageSize, yielded)
    ensures !verdict.Refuses? ==>
              && Acceptable(value, pageSize) && yielded == AddAll(yielded0, RowsOf(value), limit)
              && (repeated == 0 ==> yielded <= yielded0 + RowsOf(value))
              && (Fresh(yielded0, RowsOf(value)) ==> repeated == 0)
    ensures !verdict.Refuses? ==>
              && |yielded| + repeated <= |yielded0| + |RowsOf(value)|
              && (|yielded| < limit ==> |yielded| + repeated == |yielded0| + |RowsOf(value)|)
              && (|yielded| + repeated == |yielded0| + |RowsOf(value)| ==> AllBelong(RowsOf(value), machine))
    ensures verdict.GoesOn? ==>
              && |RowsOf(value)| == pageSize && |yielded0| < |yielded| < limit
              && (ReportedBy(value).Some? ==> |yielded| < ReportedBy(value).value)
              && (repeated == 0 ==> yielded == yielded0 + RowsOf(value))
    ensures verdict.Stops? ==> Explains(verdict.reason, value, |yielded0|, |yielded|, limit, pageSize)
  {
    seen, yielded, repeated := seen0, yielded0, 0;
    if !value.Page? || value.count.InvalidCount? {
      return Refuses, seen, yielded, repeated;
    }
    var count := ReportedBy(value);
    if value.results.OtherShape? || (value.results.Missing? && count != Some(0)) {
      return Refuses, seen, yielded, repeated;
    }
    var rows := RowsOf(value);
    if |rows| > pageSize || (count.Some? && count.value < |rows|) {
      return Refuses, seen, yielded, repeated;
    }
    var previous := |seen|;
    var ok;
    ok, seen, yielded, repeated := ConsumePage(rows, machine, limit, seen, yielded);
    if !ok {
      verdict := Refuses;
    } else if count.Some? && |seen| >= count.value {
      verdict := Stops(if |seen| == count.value then CountSatisfied else CountShrank);
    } else if |seen| >= limit {
      verdict := Stops(LimitReached);
    } else if |rows| < pageSize {
      verdict := Stops(if count.None? then CountUnavailable else CountNotReconciled);
    } else if |seen| == previous {
      verdict := Stops(RepeatedPage);
    } else {
      verdict := GoesOn;
    }
  }

  /** The actions yielded once page `p` has been read. */
  function YieldedBy(server: nat -> PortalPage, p: nat, limit: nat): seq<Row> {
    if p == 0 then [] else AddAll(YieldedBy(server, p - 1, limit), RowsOf(server(p)), limit)
  }

  lemma NothingAdded(limit: int)
    ensures AddAll([], [], limit) == []
  {
  }

  /** They are the first `limit` distinct actions of everything served. */
  lemma {:induction false} YieldedAreFirstDistinct(server: nat -> PortalPage, p: nat, limit: nat)
    ensures YieldedBy(server, p, limit) == FirstDistinct(Served(server, p), limit)
  {
    NothingAdded(limit);
    hide AddAll, RowsOf;
    if p > 0 {
      YieldedAreFirstDistinct(server, p - 1, limit);
      AddAllSplits([], Served(server, p - 1), RowsOf(server(p)), limit);
    }
  }

  /** No page repeats an action. */
  predicate AllFresh(server: nat -> PortalPage, p: nat, limit: nat) {
    p == 0 || (AllFresh(server, p - 1, limit) && Fresh(YieldedBy(server, p - 1, limit), RowsOf(server(p))))
  }

  /** The tests after page `p` end the run: the count or the limit is reached, the page is
      short, or it brought nothing new. */
  predicate StopsAt(server: nat -> PortalPage, p: nat, limit: nat)
    requires p >= 1
  {
    var n := |YieldedBy(server, p, limit)|;
    || (ReportedBy(server(p)).Some? && n >= ReportedBy(server(p)).value)
    || n >= limit
    || |RowsOf(server(p))| < Min(limit, 100)
    || n == |YieldedBy(server, p - 1, limit)|
  }

  predicate NoStopBefore(server: nat -> PortalPage, p: nat, limit: nat) {
    p <= 1 || (NoStopBefore(server, p - 1, limit) && !StopsAt(server, p - 1, limit))
  }

  /** The stop reason that is reported: drift of the count outweighs everything, duplicates
      outweigh a satisfied count, and otherwise it is why the last page ended the run. */
  predicate ReasonFits(reason: Reason, server: nat -> PortalPage, pages: nat, n: nat, duplicates: nat, limit: nat)
    requires pages >= 1
  {
    && (reason.CountChanged? <==> |CountsSeen(server, pages)| > 1)
    && (reason.DuplicateActions? ==> duplicates > 0 && ReportedBy(server(pages)) == Some(n))
    && (reason.CountSatisfied? ==> duplicates == 0)
    && (reason.PageBoundReached? ==> pages == MAX_PAGES && !StopsAt(server, pages, limit))
    && (reason.CountChanged? || reason.DuplicateActions? || reason.PageBoundReached? ||
        Explains(reason, server(pages), |YieldedBy(server, pages - 1, limit)|, n, limit, Min(limit, 100)))
  }

  /** What a run of the portal history tells its caller. */
  predicate PortalRun(machine: string, limit: nat, server: nat -> PortalPage, yielded: seq<Row>, end: End) {
    && |yielded| <= limit && DistinctActions(yielded) && AllBelong(yielded, machine)
    && (end.Covered? ==>
          var c := end.coverage;
          && 1 <= c.pages <= MAX_PAGES && c.returned == |yielded|
          // exactly the first `limit` distinct actions of the pages it read, in order
          && yielded == YieldedBy(server, c.pages, limit)
          && NoStopBefore(server, c.pages, limit) && (StopsAt(server, c.pages, limit) || c.pages == MAX_PAGES)
          // every page could be used, and every row that was read is one of this device
          && AllAcceptable(server, c.pages, Min(limit, 100))
          && (c.returned + c.duplicates == |Served(server, c.pages)| ==> AllBelong(Served(server, c.pages), machine))
          // complete: every page reported the same count, and it is the number yielded
          && (c.complete <==> c.duplicates == 0 && AllReport(server, c.pages, |yielded|))
          && (c.complete ==> yielded <= Served(server, c.pages) && c.reason.CountSatisfied?)
          && (AllFresh(server, c.pages, limit) ==> c.duplicates == 0)
          // every row of those pages was yielded or counted, unless the limit cut the last one
          && c.returned + c.duplicates <= |Served(server, c.pages)|
          && (c.returned < limit ==> c.returned + c.duplicates == |Served(server, c.pages)|)
          && c.nativeCount == ReportedBy(server(1)) && c.counts == CountsSeen(server, c.pages)
          && ReasonFits(c.reason, server, c.pages, |yielded|, c.duplicates, limit))
    && (end.Raises? ==> exists p :: 1 <= p <= MAX_PAGES && FailsAt(server, p, limit, machine, yielded))
  }

  predicate AllAcceptable(server: nat -> PortalPage, pages: nat, pageSize: int) {
    forall p :: 1 <= p <= pages ==> Acceptable(server(p), pageSize)
  }

  /** The run reaches page `p` and cannot use it, or not all of it. */
  predicate FailsAt(server: nat -> PortalPage, p: nat, limit: nat, machine: string, yielded: seq<Row>)
    requires p >= 1
  {
    NoStopBefore(server, p, limit) && Fails(YieldedBy(server, p - 1, limit), server(p), machine, limit, Min(limit, 100), yielded)
  }

  /** The loop's running totals after `pages` pages. */
  datatype Totals = Totals(counts: set<nat>, unknownCount: bool, firstCount: Option<nat>, duplicates: nat)

  predicate Accurate(t: Totals, server: nat -> PortalPage, pages: nat, limit: nat) {
    && t.unknownCount == !AllCounted(server, pages) && t.counts == CountsSeen(server, pages)
    && (pages > 0 ==> t.firstCount == ReportedBy(server(1)))
    && (t.duplicates == 0 || !AllFresh(server, pages, limit))
  }

  /** One page unfolded. */
  lemma PageStep(server: nat -> PortalPage, page: nat, limit: nat, before: seq<Row>)
    requires page >= 1 && before == YieldedBy(server, page - 1, limit)
    ensures var after := AddAll(before, RowsOf(server(page)), limit);
            && YieldedBy(server, page, limit) == after
            && (StopsAt(server, page, limit) <==>
                 || (ReportedBy(server(page)).Some? && |after| >= ReportedBy(server(page)).value)
                 || |after| >= limit || |RowsOf(server(page))| < Min(limit, 100) || |after| == |before|)
            && (AllFresh(server, page, limit) <==> AllFresh(server, page - 1, limit) && Fresh(before, RowsOf(server(page))))
    ensures NoStopBefore(server, page, limit) <==>
              page == 1 || (NoStopBefore(server, page - 1, limit) && !StopsAt(server, page - 1, limit))
    ensures Served(server, page) == Served(server, page - 1) + RowsOf(server(page))
    ensures var count := ReportedBy(server(page));
            && (AllCounted(server, page) <==> AllCounted(server, page - 1) && count.Some?)
            && CountsSeen(server, page) == CountsSeen(server, page - 1) + if count.Some? then {count.value} else {}
  {
  }

  lemma NoneAccepted(server: nat -> PortalPage, pageSize: int)
    ensures AllAcceptable(server, 0, pageSize)
  {
  }

  lemma PageChecks(server: nat -> PortalPage, page: nat, pageSize: int, machine: string)
    requires page >= 1
    ensures AllAcceptable(server, page, pageSize) <==>
              AllAcceptable(server, page - 1, pageSize) && Acceptable(server(page), pageSize)
    ensures var value := server(page);
            !value.Page? || value.count.InvalidCount? ==>
              forall before: seq<Row>, limit :: Fails(before, value, machine, limit, pageSize, before)
    ensures Acceptable(server(page), pageSize) ==> server(page).Page? && !server(page).count.InvalidCount?
  {
  }

  lemma ServedBelong(a: seq<Row>, b: seq<Row>, machine: string)
    requires AllBelong(a, machine) && AllBelong(b, machine)
    ensures AllBelong(a + b, machine)
  {
  }

  lemma NoPages(server: nat -> PortalPage, limit: nat, machine: string)
    ensures YieldedBy(server, 0, limit) == Served(server, 0) == [] && NoStopBefore(server, 0, limit)
    ensures AllCounted(server, 0) && CountsSeen(server, 0) == {} && AllFresh(server, 0, limit)
    ensures Identities([]) == {} && DistinctActions([]) && AllBelong([], machine)
  {
  }

  /** The page loop. */
  method ReadPages(machine: string, limit: nat, server: nat -> PortalPage)
    returns (ok: bool, yielded: seq<Row>, pages: nat, totals: Totals, reason: Reason)
    requires 1 <= limit <= MAX_LIMIT
    ensures |yielded| <= limit && DistinctActions(yielded) && AllBelong(yielded, machine)
    ensures 1 <= pages <= MAX_PAGES
    ensures !ok ==> FailsAt(server, pages, limit, machine, yielded)
    ensures ok ==>
              && Accurate(totals, server, pages, limit)
              && yielded == YieldedBy(server, pages, limit)
              && NoStopBefore(server, pages, limit) && (StopsAt(server, pages, limit) || pages == MAX_PAGES)
              && (totals.duplicates == 0 ==> yielded <= Served(server, pages))
              && |yielded| + totals.duplicates <= |Served(server, pages)|
              && (|yielded| < limit ==> |yielded| + totals.duplicates == |Served(server, pages)|)
              && AllAcceptable(server, pages, Min(limit, 100))
              && (|yielded| + totals.duplicates == |Served(server, pages)| ==> AllBelong(Served(server, pages), machine))
              && if StopsAt(server, pages, limit)
                 then Explains(reason, server(pages), |YieldedBy(server, pages - 1, limit)|, |yielded|, limit, Min(limit, 100))
                 else reason.PageBoundReached? && ReportedBy(server(pages)) != Some(|yielded|)
  {
    hide AddAll, Fresh, Identities, DistinctActions, AllBelong, Fails, Explains, Acceptable, AllAcceptable, RowsOf;
    hide YieldedBy, StopsAt, NoStopBefore, AllFresh, Served, AllCounted, CountsSeen;
    yielded, pages, reason := [], 0, PageBoundReached;
    totals := Totals({}, false, None, 0);
    var seen: set<string> := {};
    var page := 1;
    NoPages(server, limit, machine);
    NoneAccepted(server, Min(limit, 100));
    while page <= MAX_PAGES
      invariant 1 <= page <= MAX_PAGES + 1 && pages == page - 1
      invariant seen == Identities(yielded) && |seen| == |yielded| < limit
      invariant DistinctActions(yielded) && AllBelong(yielded, machine)
      invariant totals.unknownCount == !AllCounted(server, pages)
      invariant totals.counts == CountsSeen(server, pages)
      invariant pages > 0 ==> totals.firstCount == ReportedBy(server(1))
      invariant totals.duplicates == 0 || !AllFresh(server, pages, limit)
      invariant yielded == YieldedBy(server, pages, limit)
      invariant NoStopBefore(server, pages, limit) && (pages > 0 ==> !StopsAt(server, pages, limit))
      invariant totals.duplicates == 0 ==> yielded == Served(server, pages)
      invariant |yielded| + totals.duplicates == |Served(server, pages)|
      invariant AllAcceptable(server, pages, Min(limit, 100)) && AllBelong(Served(server, pages), machine)
      invariant pages > 0 ==> ReportedBy(server(pages)) != Some(|yielded|)
      invariant reason == PageBoundReached
      decreases MAX_PAGES - page
    {
      PageStep(server, page, limit, yielded);
      PageChecks(server, page, Min(limit, 100), machine);
      var value := server(page);
      pages := pages + 1;
      if !value.Page? || value.count.InvalidCount? {
        return false, yielded, pages, totals, reason;
      }
      var count := ReportedBy(value);
      if page == 1 {
        totals := totals.(firstCount := count);
      }
      if count.None? {
        totals := totals.(unknownCount := true);
      } else {
        totals := totals.(counts := totals.counts + {count.value});
      }
      var verdict, repeated;
      verdict, seen, yielded, repeated := ReadPage(value, machine, limit, Min(limit, 100), seen, yielded);
      if verdict.Refuses? {
        return false, yielded, pages, totals, reason;
      }
      totals := totals.(duplicates := totals.duplicates + repeated);
      if AllBelong(RowsOf(value), machine) {
        ServedBelong(Served(server, page - 1), RowsOf(value), machine);
      }
      if verdict.Stops? {
        reason := verdict.reason;
        assert totals.duplicates == 0 ==> yielded <= Served(server, pages);
        break;
      }
      page := page + 1;
    }
    ok := true;
  }

  /** The yielded rows, one by one: of this device, with an ID, and no two the same. */
  lemma OwnActions(yielded: seq<Row>, machine: string)
    requires DistinctActions(yielded) && AllBelong(yielded, machine)
    ensures forall i :: 0 <= i < |yielded| ==>
      && yielded[i].Row? && yielded[i].machine.Some? && Lower(yielded[i].machine.value) == Lower(machine)
      && yielded[i].id.Some? && yielded[i].id.value != ""
      && forall j :: 0 <= j < i ==>
           yielded[j].Row? && yielded[j].id.Some? && Lower(yielded[i].id.value) != Lower(yielded[j].id.value)
  {
    hide Lower;
    forall i, j | 0 <= j < i < |yielded|
      ensures yielded[j].Row? && yielded[j].id.Some? && Lower(yielded[i].id.value) != Lower(yielded[j].id.value)
    {
      assert Belongs(yielded[i], machine) && Belongs(yielded[j], machine) && Identity(yielded[j]) != Identity(yielded[i]);
    }
  }

  /** `PortalDeviceManagement.iter_device_action_history`: `yielded` is what the caller
      has received before the run ends. */
  method PortalHistory(machine: string, limit: int, server: nat -> PortalPage) returns (yielded: seq<Row>, end: End)
    ensures !(1 <= limit <= MAX_LIMIT) ==> end.Raises? && yielded == []
    ensures 1 <= limit <= MAX_LIMIT ==> PortalRun(machine, limit, server, yielded, end)
    // what that means for one row: it is of this device and has an ID, unlike any other's
    ensures forall i :: 0 <= i < |yielded| ==>
      && yielded[i].Row? && yielded[i].machine.Some? && Lower(yielded[i].machine.value) == Lower(machine)
      && yielded[i].id.Some? && yielded[i].id.value != ""
      && forall j :: 0 <= j < i ==>
           yielded[j].Row? && yielded[j].id.Some? && Lower(yielded[i].id.value) != Lower(yielded[j].id.value)
  {
    hide YieldedBy, Served, AllCounted, CountsSeen, AllFresh, NoStopBefore, StopsAt, AllReport;
    hide DistinctActions, AllBelong, RowsOf, FailsAt;
    if !(1 <= limit <= MAX_LIMIT) {
      return [], Raises;
    }
    var ok, pages, t, reason;
    ok, yielded, pages, t, reason := ReadPages(machine, limit, server);
    OwnActions(yielded, machine);
    if !ok {
      return yielded, Raises;
    }
    var complete := !t.unknownCount && |t.counts| == 1 && t.duplicates == 0 && t.firstCount == Some(|yielded|);
    CountsDecide(server, pages, |yielded|);
    if |t.counts| > 1 {
      reason := CountChanged;
    } else if t.duplicates > 0 && reason == CountSatisfied {
      reason := DuplicateActions;
    }
    end := Covered(Coverage(t.firstCount, t.counts, |yielded|, t.duplicates, pages, complete, reason));
  }

  // -------------------------------------------------------- an unchanging portal list

  /** What a fixed list of distinct actions of the device has led to once page `p` is
      read, as long as nothing stopped the run before. */
  lemma {:induction false} FixedProgress(machine: string, limit: nat, server: nat -> PortalPage, list: seq<Row>, p: nat)
    requires 1 <= limit <= MAX_LIMIT && DistinctActions(list) && AllBelong(list, machine)
    requires PagesList(server, list, Min(limit, 100)) && NoStopBefore(server, p, limit)
    ensures p > 0 ==> Skip(p - 1, Min(limit, 100)) < limit && Skip(p - 1, Min(limit, 100)) <= |list|
    ensures YieldedBy(server, p, limit) == list[..Min(Min(Skip(p, Min(limit, 100)), |list|), limit)]
    ensures AllFresh(server, p, limit)
    ensures p > 0 ==> ReportedBy(server(p)) == Some(|list|) && AllBelong(RowsOf(server(p)), machine)
    ensures p > 0 ==> Acceptable(server(p), Min(limit, 100))
    ensures p > 0 ==> |RowsOf(server(p))| == Min(Min(limit, 100), |list| - Skip(p - 1, Min(limit, 100)))
  {
    NoPages(server, limit, machine);
    hide AddAll, Fresh, Identities, DistinctActions, AllBelong, PagesList, PageOf;
    hide YieldedBy, StopsAt, NoStopBefore, AllFresh, Served, AllCounted, CountsSeen;
    if p == 0 {
      assert list[..0] == [];
    } else {
      var pageSize := Min(limit, 100);
      PageStep(server, p, limit, YieldedBy(server, p - 1, limit));
      FixedProgress(machine, limit, server, list, p - 1);
      var before := YieldedBy(server, p - 1, limit);
      if p > 1 {
        StillRoom(server, p - 1, limit);
      }
      assert |before| == Skip(p - 1, pageSize) < limit && |before| <= |list|;
      FixedPage(server, list, pageSize, p - 1, machine, limit);
    }
  }

  lemma StillRoom(server: nat -> PortalPage, p: nat, limit: nat)
    requires p >= 1 && !StopsAt(server, p, limit)
    ensures |YieldedBy(server, p, limit)| < limit
    ensures ReportedBy(server(p)).Some? ==> |YieldedBy(server, p, limit)| < ReportedBy(server(p)).value
  {
  }

  /** A server that pages one unchanging list of distinct actions of the device: the run
      ends with a coverage row, yields the first `limit` actions of the list in order, and
      claims completeness exactly when that is the whole list. */
  lemma FixedListIsRead(machine: string, limit: nat, server: nat -> PortalPage, list: seq<Row>,
                        yielded: seq<Row>, end: End)
    requires 1 <= limit <= MAX_LIMIT && DistinctActions(list) && AllBelong(list, machine)
    requires PagesList(server, list, Min(limit, 100)) && PortalRun(machine, limit, server, yielded, end)
    ensures end.Covered? && yielded == list[..Min(|list|, limit)] && (end.coverage.complete <==> |list| <= limit)
  {
    if end.Raises? {
      var p :| 1 <= p <= MAX_PAGES && FailsAt(server, p, limit, machine, yielded);
      FixedProgress(machine, limit, server, list, p);
    } else {
      var pages, pageSize := end.coverage.pages, Min(limit, 100);
      FixedProgress(machine, limit, server, list, pages);
      if StopsAt(server, pages, limit) {
        FixedStop(machine, limit, server, list, pages);
      } else {
        SkipIsProduct(MAX_PAGES, pageSize);
      }
      AllReportList(server, list, pageSize, pages, |yielded|);
    }
  }

  lemma FixedStop(machine: string, limit: nat, server: nat -> PortalPage, list: seq<Row>, p: nat)
    requires 1 <= limit <= MAX_LIMIT && DistinctActions(list) && AllBelong(list, machine)
    requires PagesList(server, list, Min(limit, 100)) && NoStopBefore(server, p, limit)
    requires p >= 1 && StopsAt(server, p, limit)
    ensures YieldedBy(server, p, limit) == list[..Min(|list|, limit)]
  {
    NoPages(server, limit, machine);
    hide AddAll, Fresh, Identities, DistinctActions, AllBelong, PagesList, PageOf;
    hide YieldedBy, StopsAt, NoStopBefore, AllFresh, Served, AllCounted, CountsSeen;
    PageStep(server, p, limit, YieldedBy(server, p - 1, limit));
    FixedProgress(machine, limit, server, list, p);
    FixedProgress(machine, limit, server, list, p - 1);
  }

  lemma AllReportList(server: nat -> PortalPage, list: seq<Row>, pageSize: nat, pages: nat, n: nat)
    requires PagesList(server, list, pageSize) && pages >= 1
    ensures AllReport(server, pages, n) <==> n == |list|
  {
    assert ReportedBy(server(1)) == Some(|list|);
  }

  // --------------------------------------------------------- one page, spelled out

  lemma {:induction false} OneStopIsEnough(server: nat -> PortalPage, p: nat, limit: nat)
    requires p >= 2 && NoStopBefore(server, p, limit)
    ensures !StopsAt(server, 1, limit)
  {
    if p > 2 {
      OneStopIsEnough(server, p - 1, limit);
    }
  }

  /** A server whose first page has one row at most. */
  lemma FirstPage(machine: string, limit: nat, server: nat -> PortalPage, yielded: seq<Row>, end: End)
    requires 1 <= limit <= MAX_LIMIT && PortalRun(machine, limit, server, yielded, end) && |RowsOf(server(1))| <= 1
    ensures if !Acceptable(server(1), Min(limit, 100)) || !AllBelong(RowsOf(server(1)), machine)
            then end.Raises? && yielded == []
            else end.Covered? && end.coverage.pages == 1 && yielded == RowsOf(server(1))
  {
    var rows := RowsOf(server(1));
    assert YieldedBy(server, 0, limit) == [] && Served(server, 1) == [] + rows;
    AddAtMostOne(rows, limit);
    assert StopsAt(server, 1, limit);
    if end.Raises? {
      var p :| 1 <= p <= MAX_PAGES && FailsAt(server, p, limit, machine, yielded);
      if p > 1 {
        OneStopIsEnough(server, p, limit);
      }
    } else if end.coverage.pages > 1 {
      OneStopIsEnough(server, end.coverage.pages, limit);
    }
  }

  lemma AddAtMostOne(rows: seq<Row>, limit: nat)
    requires |rows| <= 1 && limit >= 1
    ensures AddAll([], rows, limit) == rows
    ensures forall k :: 0 <= k < |rows| ==> AddAll([], rows[..k], limit) == []
  {
    if rows != [] {
      assert rows[1..] == [] && rows[..0] == [] && [] + [rows[0]] == rows;
    }
  }

  /** One page that reports one action of this device, in a list or alone: it is yielded and
      the run is complete. */
  lemma OwnActionIsYielded(machine: string, limit: nat, server: nat -> PortalPage, row: Row, yielded: seq<Row>, end: End)
    requires 1 <= limit <= MAX_LIMIT && PortalRun(machine, limit, server, yielded, end)
    requires server(1) == Page(Count(1), Many([row])) || server(1) == Page(Count(1), Single(row))
    requires row.Row? && row.machine.Some? && Lower(row.machine.value) == Lower(machine) && row.id.Some? && row.id.value != ""
    ensures yielded == [row] && end.Covered? && end.coverage.complete && end.coverage.reason.CountSatisfied?
  {
    hide PortalRun, Lower;
    assert RowsOf(server(1)) == [row];
    FirstPage(machine, limit, server, yielded, end);
    OnePage(machine, limit, server, yielded, end);
  }

  /** What a run that ends after one page says of it. */
  lemma OnePage(machine: string, limit: nat, server: nat -> PortalPage, yielded: seq<Row>, end: End)
    requires 1 <= limit <= MAX_LIMIT && PortalRun(machine, limit, server, yielded, end)
    requires end.Covered? && end.coverage.pages == 1 && yielded == RowsOf(server(1)) && |yielded| <= 1
    ensures end.coverage.complete <==> ReportedBy(server(1)) == Some(|yielded|)
    ensures end.coverage.reason ==
      if ReportedBy(server(1)) == Some(|yielded|) then CountSatisfied
      else if |yielded| >= limit then LimitReached
      else if ReportedBy(server(1)).None? then CountUnavailable else CountNotReconciled
  {
  }

  /** The same action of another device, or without a name, a device or an ID, raises. */
  lemma ForeignActionRaises(machine: string, limit: nat, server: nat -> PortalPage, row: Row, yielded: seq<Row>, end: End)
    requires 1 <= limit <= MAX_LIMIT && PortalRun(machine, limit, server, yielded, end)
    requires server(1) == Page(Count(1), Many([row])) || server(1) == Page(Count(1), Single(row))
    requires row.Row? && row.machine.Some? && row.id.Some? ==> Lower(row.machine.value) != Lower(machine) || row.id.value == ""
    ensures end.Raises? && yielded == []
  {
    hide PortalRun, Lower;
    assert RowsOf(server(1)) == [row] && !Belongs(row, machine);
    ForeignRow([row], 0, machine);
    FirstPage(machine, limit, server, yielded, end);
  }

  /** An empty history: reported as empty, with or without a list, it is complete; a page
      without results raises in any other case, and so does one that reports less than it
      lists. */
  lemma EmptyHistory(machine: string, limit: nat, server: nat -> PortalPage, yielded: seq<Row>, end: End)
    requires 1 <= limit <= MAX_LIMIT && PortalRun(machine, limit, server, yielded, end)
    ensures server(1) == Page(Count(0), Missing) || server(1) == Page(Count(0), Many([])) ==>
      yielded == [] && end.Covered? && end.coverage.complete
    ensures server(1) == Page(NoCount, Many([])) ==> yielded == [] && end.Covered? && !end.coverage.complete
    ensures server(1) == Page(NoCount, Missing) || server(1) == Page(Count(1), Missing) ==> end.Raises?
    ensures forall row :: server(1) == Page(Count(0), Many([row])) ==> end.Raises?
  {
    hide PortalRun;
    if |RowsOf(server(1))| <= 1 {
      FirstPage(machine, limit, server, yielded, end);
      if RowsOf(server(1)) == [] && Acceptable(server(1), Min(limit, 100)) {
        OnePage(machine, limit, server, yielded, end);
      }
    }
  }

  // ------------------------------------------------------------- official history

  datatype OfficialPage = OfficialFails | OfficialPage(rows: seq<Row>, nextLink: bool)

  /** The answer to request number `request` for `take` rows after the first `skip`. */
  type Official = (nat, nat, nat) -> OfficialPage

  function Take(limit: nat, returned: nat): int {
    Min(Min(limit, 100), limit - returned)
  }

  /** Everything yielded by `pages` pages that did not end the run. */
  function FullPages(server: Official, limit: nat, pages: nat): seq<Row> {
    if pages == 0 then []
    else
      var before := FullPages(server, limit, pages - 1);
      before + RowsAnswered(Asked(server, limit, pages - 1, before))
  }

  /** The page asked for after `pages` pages have yielded `before`. */
  function Asked(server: Official, limit: nat, pages: nat, before: seq<Row>): OfficialPage {
    server(pages, |before|, Max(0, Take(limit, |before|)))
  }

  function RowsAnswered(page: OfficialPage): seq<Row> {
    if page.OfficialPage? then page.rows else []
  }

  /** A page that lets the run go on: full, of this device, repeating nothing, no link. */
  predicate Continues(page: OfficialPage, limit: nat, machine: string, before: seq<Row>) {
    && page.OfficialPage? && !page.nextLink && AllBelong(page.rows, machine) && Fresh(before, page.rows)
    && |page.rows| == Take(limit, |before|) && |before| + |page.rows| < limit
  }

  predicate AllContinue(server: Official, limit: nat, machine: string, pages: nat) {
    pages == 0 ||
    (AllContinue(server, limit, machine, pages - 1) &&
     var before := FullPages(server, limit, pages - 1);
     Continues(Asked(server, limit, pages - 1, before), limit, machine, before))
  }

  /** How a page ends a run that had yielded `before`. */
  predicate EndsWith(page: OfficialPage, limit: nat, before: seq<Row>, yielded: seq<Row>, reason: Reason) {
    && page.OfficialPage? && before <= yielded <= before + page.rows
    && match reason
       case RepeatedAction =>
         && |yielded| < |before| + |page.rows|
         && Identity(page.rows[|yielded| - |before|]) in Identities(yielded)
       case ContinuationUnfollowed => yielded == before + page.rows && page.nextLink
       case ShortPage => yielded == before + page.rows && !page.nextLink && |page.rows| < Take(limit, |before|)
       case LimitReached => yielded == before + page.rows && !page.nextLink && |yielded| == limit
       case _ => false
  }

  predicate EndsAfter(server: Official, limit: nat, pages: nat, yielded: seq<Row>, reason: Reason) {
    var before := FullPages(server, limit, pages);
    EndsWith(Asked(server, limit, pages, before), limit, before, yielded, reason)
  }

  /** What a run of the official history tells its caller. The page bound is not among
      the reasons a run can end: it is never reached. */
  ghost predicate OfficialRun(machine: string, limit: nat, server: Official, yielded: seq<Row>, end: End) {
    && |yielded| <= limit && DistinctActions(yielded) && AllBelong(yielded, machine)
    && (end.Covered? ==>
          var c := end.coverage;
          && 1 <= c.pages <= MAX_PAGES && c.returned == |yielded|
          && AllContinue(server, limit, machine, c.pages - 1)
          && EndsAfter(server, limit, c.pages - 1, yielded, c.reason)
          && (c.complete <==> c.reason.ShortPage?))
    && (end.Raises? ==>
          exists p: nat :: p < MAX_PAGES && OfficialFailsAt(server, limit, machine, p))
  }

  /** The answer to request `p` cannot be used. */
  predicate OfficialFailsAt(server: Official, limit: nat, machine: string, p: nat) {
    && AllContinue(server, limit, machine, p)
    && var before := FullPages(server, limit, p);
       var page := Asked(server, limit, p, before);
       |before| < limit && (!page.OfficialPage? || |page.rows| > Take(limit, |before|) || !AllBelong(page.rows, machine))
  }

  datatype RowsVerdict = RowsFail | RowsRepeat | RowsEnd

  /** The row loop of one official page. */
  method ConsumeOfficial(rows: seq<Row>, machine: string, seen0: set<string>, yielded0: seq<Row>)
    returns (verdict: RowsVerdict, seen: set<string>, yielded: seq<Row>)
    requires seen0 == Identities(yielded0) && DistinctActions(yielded0) && AllBelong(yielded0, machine)
    ensures seen == Identities(yielded) && DistinctActions(yielded) && AllBelong(yielded, machine)
    ensures yielded0 <= yielded <= yielded0 + rows
    ensures verdict.RowsFail? ==> !AllBelong(rows, machine)
    ensures verdict.RowsRepeat? ==>
              && |yielded| < |yielded0| + |rows| && Identity(rows[|yielded| - |yielded0|]) in Identities(yielded)
              && !Fresh(yielded0, rows)
    ensures verdict.RowsEnd? ==> yielded == yielded0 + rows && AllBelong(rows, machine) && Fresh(yielded0, rows)
  {
    hide Identity, Belongs, Identities, DistinctActions;
    seen, yielded := seen0, yielded0;
    assert rows[..0] == [] && rows[0..] == rows;
    for i := 0 to |rows|
      invariant seen == Identities(yielded) && |yielded| == |yielded0| + i
      invariant DistinctActions(yielded) && AllBelong(yielded, machine) && AllBelong(rows[..i], machine)
      invariant yielded0 <= yielded && yielded + rows[i..] == yielded0 + rows
      invariant Fresh(yielded, rows[i..]) <==> Fresh(yielded0, rows)
    {
      var row, rest := rows[i], rows[i..];
      assert rest[0] == row && rest[1..] == rows[i + 1..];
      if !Belongs(row, machine) {
        return RowsFail, seen, yielded;
      }
      if Identity(row) in seen {
        return RowsRepeat, seen, yielded;
      }
      NewAction(yielded, rest, machine);
      assert rows[..i + 1] == rows[..i] + [row];
      BelongAppend(rows[..i], row, machine);
      seen := seen + {Identity(row)};
      yielded := yielded + [row];
    }
    assert rows[..|rows|] == rows && rows[|rows|..] == [];
    return RowsEnd, seen, yielded;
  }

  lemma OfficialStart(server: Official, limit: nat, machine: string)
    ensures FullPages(server, limit, 0) == [] && AllContinue(server, limit, machine, 0)
    ensures Identities([]) == {} && DistinctActions([]) && AllBelong([], machine)
  {
  }

  lemma OfficialStep(server: Official, limit: nat, machine: string, pages: nat)
    ensures var before := FullPages(server, limit, pages);
            var page := Asked(server, limit, pages, before);
            && FullPages(server, limit, pages + 1) == before + RowsAnswered(page)
            && (AllContinue(server, limit, machine, pages + 1) <==>
                  AllContinue(server, limit, machine, pages) && Continues(page, limit, machine, before))
            && (OfficialFailsAt(server, limit, machine, pages) <==>
                  && AllContinue(server, limit, machine, pages) && |before| < limit
                  && (!page.OfficialPage? || |page.rows| > Take(limit, |before|) || !AllBelong(page.rows, machine)))
            && forall yielded, reason ::
                 EndsAfter(server, limit, pages, yielded, reason) <==> EndsWith(page, limit, before, yielded, reason)
  {
  }

  /** `OfficialDeviceManagement.iter_device_action_history`. */
  method OfficialHistory(machine: string, limit: int, server: Official) returns (yielded: seq<Row>, end: End)
    ensures !(1 <= limit <= MAX_LIMIT) ==> end.Raises? && yielded == []
    ensures 1 <= limit <= MAX_LIMIT ==> OfficialRun(machine, limit, server, yielded, end)
    ensures forall i :: 0 <= i < |yielded| ==>
      && yielded[i].Row? && yielded[i].machine.Some? && Lower(yielded[i].machine.value) == Lower(machine)
      && yielded[i].id.Some? && yielded[i].id.value != ""
      && forall j :: 0 <= j < i ==>
           yielded[j].Row? && yielded[j].id.Some? && Lower(yielded[i].id.value) != Lower(yielded[j].id.value)
  {
    hide DistinctActions, AllBelong, Identities, Fresh, FullPages, AllContinue, EndsAfter, OfficialFailsAt;
    yielded := [];
    if !(1 <= limit <= MAX_LIMIT) {
      return [], Raises;
    }
    var returned, pageSize, pages := 0, Min(limit, 100), 0;
    var seen: set<string> := {};
    var complete, reason := false, LimitReached;
    var request, exhausted := 0, true;
    OfficialStart(server, limit, machine);
    OwnActions(yielded, machine);
    while request < MAX_PAGES
      invariant 0 <= request == pages <= MAX_PAGES
      invariant returned == |yielded| == Skip(pages, pageSize) < limit
      invariant seen == Identities(yielded) && DistinctActions(yielded) && AllBelong(yielded, machine)
      invariant yielded == FullPages(server, limit, pages) && AllContinue(server, limit, machine, pages)
      invariant !complete && reason == LimitReached && exhausted
      decreases MAX_PAGES - request
    {
      var take := Min(pageSize, limit - returned);
      if take <= 0 {
        exhausted := false;
        break;
      }
      OfficialStep(server, limit, machine, pages);
      ghost var before := yielded;
      var value := server(request, returned, take);
      pages := pages + 1;
      OwnActions(yielded, machine);
      if !value.OfficialPage? || |value.rows| > take {
        assert OfficialFailsAt(server, limit, machine, request);
        return yielded, Raises;
      }
      var verdict;
      verdict, seen, yielded := ConsumeOfficial(value.rows, machine, seen, yielded);
      returned := |yielded|;
      OwnActions(yielded, machine);
      if verdict.RowsFail? {
        assert OfficialFailsAt(server, limit, machine, request);
        return yielded, Raises;
      }
      if verdict.RowsRepeat? {
        reason, exhausted := RepeatedAction, false;
        break;
      }
      if value.nextLink {
        reason, exhausted := ContinuationUnfollowed, false;
        break;
      }
      if |value.rows| < take {
        complete, reason, exhausted := true, ShortPage, false;
        break;
      }
      if returned >= limit {
        exhausted := false;
        break;
      }
      request := request + 1;
    }
    OwnActions(yielded, machine);
    if exhausted {
      SkipIsProduct(MAX_PAGES, pageSize);
      reason := PageBoundReached;
    }
    end := Covered(Coverage(None, {}, returned, 0, pages, complete, reason));
  }

  /** A server that pages one unchanging list without continuation links. */
  ghost predicate PagesOfficially(server: Official, list: seq<Row>) {
    forall request: nat, skip: nat, take: nat ::
      server(request, skip, take) == OfficialPage(list[Min(skip, |list|)..Min(skip + take, |list|)], false)
  }

  lemma AskedOfList(server: Official, list: seq<Row>, limit: nat, pages: nat, before: seq<Row>)
    requires PagesOfficially(server, list) && |before| < limit && before <= list
    ensures var page, take := Asked(server, limit, pages, before), Take(limit, |before|);
            && page.OfficialPage? && !page.nextLink && 1 <= take && |before| + take <= limit
            && |page.rows| == Min(take, |list| - |before|) && before + page.rows <= list
            && page.rows == list[|before|..|before| + |page.rows|]
  {
    assert server(pages, |before|, Take(limit, |before|)).rows ==
           list[|before|..Min(|before| + Take(limit, |before|), |list|)];
  }

  lemma {:induction false} OfficialPrefix(server: Official, list: seq<Row>, limit: nat, machine: string, pages: nat)
    requires PagesOfficially(server, list) && AllContinue(server, limit, machine, pages) && limit >= 1
    ensures FullPages(server, limit, pages) <= list && |FullPages(server, limit, pages)| < limit
  {
    OfficialStart(server, limit, machine);
    hide PagesOfficially, Fresh, AllBelong, Asked, FullPages, AllContinue;
    if pages > 0 {
      OfficialStep(server, limit, machine, pages - 1);
      OfficialPrefix(server, list, limit, machine, pages - 1);
      AskedOfList(server, list, limit, pages - 1, FullPages(server, limit, pages - 1));
    }
  }

  lemma ListNeverRepeats(list: seq<Row>, n: nat)
    requires DistinctActions(list) && n < |list|
    ensures Identity(list[n]) !in Identities(list[..n])
  {
    hide Identity;
    assert list == list[..n] + list[n..];
    NextIsNew(list[..n], list[n..]);
  }

  /** Such a server: the first `limit` actions of the list are yielded in order, and the
      run claims completeness exactly when the list is shorter than the limit. */
  lemma OfficialListIsRead(machine: string, limit: nat, server: Official, list: seq<Row>, yielded: seq<Row>, end: End)
    requires 1 <= limit <= MAX_LIMIT && DistinctActions(list) && AllBelong(list, machine)
    requires PagesOfficially(server, list) && OfficialRun(machine, limit, server, yielded, end)
    ensures end.Covered? && yielded == list[..Min(|list|, limit)]
    ensures end.coverage.complete <==> |list| < limit
  {
    hide Fresh, DistinctActions, Identities, Identity, Belongs, PagesOfficially, Asked, FullPages, AllContinue;
    if end.Raises? {
      var p: nat :| p < MAX_PAGES && OfficialFailsAt(server, limit, machine, p);
      OfficialPrefix(server, list, limit, machine, p);
      AskedOfList(server, list, limit, p, FullPages(server, limit, p));
      assert false;
    } else {
      var pages := end.coverage.pages - 1;
      OfficialPrefix(server, list, limit, machine, pages);
      AskedOfList(server, list, limit, pages, FullPages(server, limit, pages));
      OfficialEnd(list, limit, FullPages(server, limit, pages),
                  Asked(server, limit, pages, FullPages(server, limit, pages)), yielded, end.coverage.reason);
    }
  }

  lemma OfficialEnd(list: seq<Row>, limit: nat, before: seq<Row>, page: OfficialPage, yielded: seq<Row>, reason: Reason)
    requires DistinctActions(list) && page.OfficialPage? && !page.nextLink && before + page.rows <= list
    requires |before| < limit && |before| + Take(limit, |before|) <= limit
    requires |page.rows| == Min(Take(limit, |before|), |list| - |before|)
    requires EndsWith(page, limit, before, yielded, reason)
    ensures yielded == list[..Min(|list|, limit)] && (reason.ShortPage? <==> |list| < limit)
  {
    hide DistinctActions, Identities, Identity;
    var n := |yielded|;
    assert yielded == list[..n];
    if n < |before| + |page.rows| {
      assert list[n] == (before + page.rows)[n] == page.rows[n - |before|];
      ListNeverRepeats(list, n);
    }
  }

  /** One answer with one action of this device, and room for more: yielded and complete. The
      action of another device raises. */
  lemma OfficialAction(machine: string, limit: nat, server: Official, row: Row, yielded: seq<Row>, end: End)
    requires 2 <= limit <= MAX_LIMIT && OfficialRun(machine, limit, server, yielded, end)
    requires server(0, 0, Min(limit, 100)) == OfficialPage([row], false)
    ensures if row.Row? && row.machine.Some? && Lower(row.machine.value) == Lower(machine) && row.id.Some? && row.id.value != ""
            then end.Covered? && yielded == [row] && end.coverage.complete && end.coverage.reason.ShortPage?
            else end.Raises?
  {
    hide Lower, DistinctActions;
    OfficialStart(server, limit, machine);
    assert Asked(server, limit, 0, []) == OfficialPage([row], false);
    assert !Continues(OfficialPage([row], false), limit, machine, []);
    if end.Raises? {
      var p: nat :| p < MAX_PAGES && OfficialFailsAt(server, limit, machine, p);
      if p > 0 {
        FirstContinues(server, limit, machine, p);
      }
    } else {
      if end.coverage.pages > 1 {
        FirstContinues(server, limit, machine, end.coverage.pages - 1);
      }
      assert |yielded| <= 1 && (yielded == [row] ==> yielded[0] == row);
    }
  }

  lemma {:induction false} FirstContinues(server: Official, limit: nat, machine: string, p: nat)
    requires p >= 1 && AllContinue(server, limit, machine, p)
    ensures Continues(Asked(server, limit, 0, []), limit, machine, [])
  {
    OfficialStart(server, limit, machine);
    OfficialStep(server, limit, machine, p - 1);
    if p > 1 {
      FirstContinues(server, limit, machine, p - 1);
    }
  }
}
