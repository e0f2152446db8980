/**
  The device timeline stream (`api/timeline.py`): a forward-scrolling pager with an exact
  upper bound. Server timestamps count 100 ns ticks; the client's own bounds count
  microseconds, and requests can only carry whole seconds.
*/
module Timeline {
  import opened Common

  // ------------------------------------------------------------------------- time

  const SECOND := 1000000

  /** The microsecond a tick falls in: the seventh digit is cut off. */
  function Micros(ticks: int): int {
    ticks / 10
  }

  /** `_ceil_to_second`. */
  function CeilToSecond(micros: int): int {
    if micros % SECOND != 0 then (micros + SECOND) - (micros + SECOND) % SECOND else micros
  }

  /** `_format_apiproxy_time` keeps whole seconds only. */
  function WholeSeconds(micros: int): int {
    micros / SECOND
  }

  /** The bounds the request carries, in ticks. */
  function RequestedFrom(fromDate: int): int {
    WholeSeconds(fromDate) * SECOND * 10
  }

  function RequestedTo(toDate: int): int {
    WholeSeconds(CeilToSecond(toDate)) * SECOND * 10
  }

  /** Rounding up is the least whole second that is not before the bound. */
  lemma CeilIsLeast(micros: int, second: int)
    ensures RequestedTo(micros) >= micros * 10 && RequestedTo(micros) < (micros + SECOND) * 10
    ensures second * SECOND >= micros ==> second >= WholeSeconds(CeilToSecond(micros))
  {
    var n := WholeSeconds(micros);
    assert n * SECOND <= micros < (n + 1) * SECOND;
    if micros % SECOND != 0 {
      assert CeilToSecond(micros) == (n + 1) * SECOND;
    } else {
      assert CeilToSecond(micros) == n * SECOND;
    }
  }

  /** The requested window contains every instant between the caller's bounds. */
  lemma RoundingLosesNothing(fromDate: int, toDate: int, ticks: int)
    requires fromDate * 10 <= ticks <= toDate * 10
    ensures RequestedFrom(fromDate) <= ticks <= RequestedTo(toDate)
  {
    CeilIsLeast(toDate, 0);
  }

  /** An instant in the last microsecond that the client still accepts lies inside the
      requested window exactly when the bound is not a whole second. */
  lemma LastMicrosecondIsServedIff(toDate: int)
    ensures (forall ticks :: Micros(ticks) <= toDate ==> ticks <= RequestedTo(toDate)) <==> toDate % SECOND != 0
  {
    CeilIsLeast(toDate, 0);
    var n := WholeSeconds(toDate);
    if toDate % SECOND != 0 {
      assert CeilToSecond(toDate) == (n + 1) * SECOND;
      forall ticks | Micros(ticks) <= toDate ensures ticks <= RequestedTo(toDate) {
      }
    } else {
      assert CeilToSecond(toDate) == n * SECOND;
      assert Micros(toDate * 10 + 5) <= toDate && !(toDate * 10 + 5 <= RequestedTo(toDate));
    }
  }

  /** For a whole-second bound: an event half a microsecond past it is kept if it is served,
      but lies outside the requested window. */
  lemma LastMicrosecondIsMissed()
    ensures Micros(5) <= 0 && !(5 <= RequestedTo(0))
  {
    CeilIsLeast(0, 0);
  }

  // ---------------------------------------------------------------- reading a time

  predicate IsDigit(c: char) {
    '0' <= c <= '9'
  }

  function Digit(c: char): nat
    requires IsDigit(c)
  {
    c as int - '0' as int
  }

  predicate AllDigits(s: string) {
    forall i :: 0 <= i < |s| ==> IsDigit(s[i])
  }

  function Value(s: string): nat
    requires AllDigits(s)
  {
    if s == "" then 0 else Value(s[..|s| - 1]) * 10 + Digit(s[|s| - 1])
  }

  function Pow10(n: nat): nat {
    if n == 0 then 1 else 10 * Pow10(n - 1)
  }

  function Zeros(n: nat): string {
    seq(n, _ => '0')
  }

  /** What the scan takes for a digit; `wide` are the digits of other scripts that
      `str.isdigit` accepts too. */
  predicate Scans(c: char, wide: char -> bool) {
    IsDigit(c) || wide(c)
  }

  /** The digit scan of `_parse_apiproxy_time`: the leading digits of what follows the
      dot, brought to exactly six, and the rest. */
  method ScanFraction(tail: string, wide: char -> bool) returns (digits: string, offset: string, ghost n: nat)
    ensures n <= |tail| && forall i :: 0 <= i < n ==> 48 <= tail[i] as int <= 57 || wide(tail[i])
    ensures n < |tail| ==> !(48 <= tail[n] as int <= 57 || wide(tail[n]))
    ensures offset == tail[n..]
    ensures |digits| == 6 && (AllDigits(tail[..n]) ==> AllDigits(digits))
    ensures digits == if n >= 6 then tail[..6] else tail[..n] + Zeros(6 - n)
  {
    digits := "";
    var i := 0;
    while i < |tail| && Scans(tail[i], wide)
      invariant i <= |tail| && digits == tail[..i] && forall k :: 0 <= k < i ==> Scans(tail[k], wide)
    {
      digits := digits + [tail[i]];
      i := i + 1;
    }
    n := i;
    offset := tail[i..];
    digits := (digits + "000000")[..6];
    assert n < 6 ==> digits == tail[..n] + Zeros(6 - n);
  }

  lemma Carry(a: nat, p: nat, r: nat, d: nat)
    ensures (a * p + r) * 10 + d == a * (10 * p) + (r * 10 + d)
  {
  }

  lemma ValueStep(s: string, c: char)
    requires AllDigits(s) && IsDigit(c)
    ensures AllDigits(s + [c]) && Value(s + [c]) == Value(s) * 10 + Digit(c)
  {
    assert (s + [c])[..|s|] == s;
  }

  lemma {:induction false} ValueSplits(a: string, b: string)
    requires AllDigits(a) && AllDigits(b)
    ensures AllDigits(a + b) && Value(a + b) == Value(a) * Pow10(|b|) + Value(b)
    ensures Value(b) < Pow10(|b|)
  {
    if b == "" {
      assert a + b == a;
    } else {
      var rest, last := b[..|b| - 1], b[|b| - 1];
      ValueSplits(a, rest);
      assert a + b == (a + rest) + [last] && b == rest + [last];
      ValueStep(a + rest, last);
      ValueStep(rest, last);
      Carry(Value(a), Pow10(|rest|), Value(rest), Digit(last));
    }
  }

  lemma {:induction false} ZerosAreNothing(n: nat)
    ensures AllDigits(Zeros(n)) && Value(Zeros(n)) == 0
  {
    if n > 0 {
      assert Zeros(n)[..n - 1] == Zeros(n - 1);
      ZerosAreNothing(n - 1);
    }
  }

  /** The six digits are the microsecond the fraction falls in, whatever its length: the
      fraction `v / 10^n` satisfies `d / 10^6 <= v / 10^n < (d + 1) / 10^6`. */
  lemma ScanFloors(fraction: string, digits: string)
    requires AllDigits(fraction) && |digits| == 6 && AllDigits(digits)
    requires digits == if |fraction| >= 6 then fraction[..6] else fraction + Zeros(6 - |fraction|)
    ensures Value(digits) * Pow10(|fraction|) <= Value(fraction) * Pow10(6) < (Value(digits) + 1) * Pow10(|fraction|)
  {
    hide Value, Pow10;
    if |fraction| >= 6 {
      assert fraction == digits + fraction[6..];
      LongFraction(digits, fraction[6..]);
    } else {
      ShortFraction(fraction);
    }
  }

  lemma LongFraction(digits: string, rest: string)
    requires |digits| == 6 && AllDigits(digits) && AllDigits(rest)
    ensures var all := digits + rest;
            Value(digits) * Pow10(|all|) <= Value(all) * Pow10(6) < (Value(digits) + 1) * Pow10(|all|)
  {
    hide Value, Pow10;
    ValueSplits(digits, rest);
    PowersAdd(6, |rest|);
    PowPositive(6);
    Scale(Value(digits), Value(rest), Pow10(|rest|), Pow10(6), Pow10(6 + |rest|));
  }

  lemma ShortFraction(fraction: string)
    requires |fraction| < 6 && AllDigits(fraction)
    ensures var digits := fraction + Zeros(6 - |fraction|);
            && AllDigits(digits)
            && Value(digits) * Pow10(|fraction|) <= Value(fraction) * Pow10(6) < (Value(digits) + 1) * Pow10(|fraction|)
  {
    hide Value, Pow10;
    var n := |fraction|;
    ZerosAreNothing(6 - n);
    ValueSplits(fraction, Zeros(6 - n));
    PowersAdd(n, 6 - n);
    PowPositive(n);
    Pad(Value(fraction), Pow10(n), Pow10(6 - n));
  }

  lemma Pad(v: nat, p: nat, q: nat)
    requires p > 0
    ensures (v * q) * p == v * (p * q) && v * (p * q) < (v * q + 1) * p
  {
    assert v * (p * q) == (v * q) * p;
  }

  lemma {:induction false} PowersAdd(a: nat, b: nat)
    ensures Pow10(a + b) == Pow10(a) * Pow10(b)
  {
    if a > 0 {
      PowersAdd(a - 1, b);
      Tenfold(Pow10(a - 1), Pow10(b));
    }
  }

  lemma Tenfold(p: int, q: int)
    ensures 10 * (p * q) == (10 * p) * q
  {
  }

  lemma {:induction false} PowPositive(n: nat)
    ensures Pow10(n) > 0
  {
    if n > 0 {
      PowPositive(n - 1);
    }
  }

  lemma Scale(d: nat, r: nat, p: nat, six: nat, all: nat)
    requires all == six * p && r < p && six > 0
    ensures d * all <= (d * p + r) * six < (d + 1) * all
  {
    assert d * (six * p) == (d * p) * six;
    assert r * six < p * six;
    assert (d + 1) * (six * p) == (d * p) * six + p * six;
  }

  // --------------------------------------------------------------- following `Next`

  const PREFIX := "/apiproxy/mtp/"
  const ENDPOINT := "mdeTimelineExperience"

  lemma TheyAre()
    ensures PREFIX == "/apiproxy/mtp/" && ENDPOINT == "mdeTimelineExperience"
  {
  }

  function TrimSlashes(s: string): (r: string)
    ensures r == "" || r[0] != '/'
  {
    if s != "" && s[0] == '/' then TrimSlashes(s[1..]) else s
  }

  /** `_strip_apiproxy_prefix`. */
  function Strip(url: string): string {
    if PREFIX <= url then url[|PREFIX|..] else TrimSlashes(url)
  }

  /** `_next_request_path`. */
  function NextRequestPath(url: string): string {
    var stripped := Strip(url);
    if ENDPOINT <= stripped then stripped else ENDPOINT + "/" + TrimSlashes(stripped)
  }

  lemma NothingToTrim(s: string)
    requires s == "" || s[0] != '/'
    ensures TrimSlashes(s) == s
  {
  }

  predicate AllSlashes(s: string) {
    forall i :: 0 <= i < |s| ==> s[i] == '/'
  }

  /** The path always names the endpoint, and resolving it again changes nothing. Of the
      URL it drops the one prefix, if it is there, and then leading slashes; all the rest,
      the query with it, is taken over verbatim. */
  lemma PathIsStable(url: string) returns (dropped: string, kept: string)
    ensures ENDPOINT <= NextRequestPath(url)
    ensures NextRequestPath(NextRequestPath(url)) == NextRequestPath(url)
    ensures url == dropped + kept && (kept == "" || kept[0] != '/')
    ensures if PREFIX <= url then PREFIX <= dropped && (forall i :: |PREFIX| <= i < |dropped| ==> dropped[i] == '/')
            else forall i :: 0 <= i < |dropped| ==> dropped[i] == '/'
    ensures NextRequestPath(url) ==
      if ENDPOINT <= kept && (PREFIX <= url ==> dropped == PREFIX) then kept else ENDPOINT + "/" + kept
  {
    hide TrimSlashes;
    EndpointStays(NextRequestPath(url));
    var rest := if PREFIX <= url then url[|PREFIX|..] else url;
    var gone := TrimSplits(rest);
    kept := TrimSlashes(rest);
    NothingToTrim(kept);
    if PREFIX <= url {
      dropped := PREFIX + gone;
      assert url == PREFIX + rest && dropped[|PREFIX|..] == gone;
      Associate(PREFIX, gone, kept);
      if ENDPOINT <= rest {
        NothingToTrim(rest);
        assert gone == "";
      }
    } else {
      dropped := gone;
    }
  }

  lemma Associate(a: string, b: string, c: string)
    ensures a + (b + c) == (a + b) + c
  {
  }

  lemma {:induction false} TrimSplits(s: string) returns (gone: string)
    ensures s == gone + TrimSlashes(s) && AllSlashes(gone)
  {
    if s != "" && s[0] == '/' {
      var more := TrimSplits(s[1..]);
      gone := [s[0]] + more;
      assert s == [s[0]] + s[1..];
      Associate([s[0]], more, TrimSlashes(s[1..]));
    } else {
      gone := "";
    }
  }

  /** A path that names the endpoint is left as it is. */
  lemma EndpointStays(path: string)
    requires ENDPOINT <= path
    ensures NextRequestPath(path) == path
  {
    assert path[0] == 'm' && PREFIX[0] == '/';
    NothingToTrim(path);
  }

  // ------------------------------------------------------------------- the stream

  /** The `ActionTime` of an event: absent, not readable as a time, or an instant. */
  datatype Time = Absent | Unreadable | At(ticks: int)

  datatype Event = Event(id: nat, time: Time)

  /** `from` is the readable `fromDate` inside the `Next` URL. */
  datatype Next = Next(url: string, from: Option<int>)

  datatype Page = Page(items: seq<Event>, partial: bool, next: Option<Next>)

  /** How a stream ends: exhausted, with the partial-response error, or not yet. */
  datatype End = Done | PartialResponse | StillOpen

  predicate Within(e: Event, toDate: int) {
    e.time.At? ==> Micros(e.time.ticks) <= toDate
  }

  function Kept(items: seq<Event>, toDate: int): seq<Event> {
    if items == [] then []
    else Kept(items[..|items| - 1], toDate) + if Within(items[|items| - 1], toDate) then [items[|items| - 1]] else []
  }

  /** Everything on the pages, in order. */
  function Items(pages: seq<Page>): seq<Event> {
    if pages == [] then [] else Items(pages[..|pages| - 1]) + pages[|pages| - 1].items
  }

  /** After this page no further one is asked for. */
  predicate Last(page: Page, toDate: int) {
    page.next.None? || (page.next.value.from.Some? && Micros(page.next.value.from.value) > toDate)
  }

  lemma {:induction false} KeptSplits(a: seq<Event>, b: seq<Event>, toDate: int)
    ensures Kept(a + b, toDate) == Kept(a, toDate) + Kept(b, toDate)
  {
    if b == [] {
      assert a + b == a;
    } else {
      assert (a + b)[..|a + b| - 1] == a + b[..|b| - 1];
      KeptSplits(a, b[..|b| - 1], toDate);
    }
  }

  /** The path of `build_timeline_url`. */
  function FirstPath(machine: string): string {
    ENDPOINT + "/machines/" + machine + "/events"
  }

  lemma FirstPathIs(machine: string)
    ensures FirstPath(machine) == "mdeTimelineExperience/machines/" + machine + "/events"
  {
    assert ENDPOINT + "/machines/" == "mdeTimelineExperience/machines/";
  }

  /** The filter over the items of one page. */
  method FilterPage(items: seq<Event>, toDate: int) returns (kept: seq<Event>)
    ensures kept == Kept(items, toDate)
  {
    kept := [];
    for i := 0 to |items|
      invariant kept == Kept(items[..i], toDate)
    {
      assert items[..i + 1][..i] == items[..i];
      if Within(items[i], toDate) {
        kept := kept + [items[i]];
      }
    }
    assert items[..|items|] == items;
  }

  lemma NothingRead(pages: seq<Page>, toDate: int)
    ensures Kept(Items(pages[..0]), toDate) == []
  {
  }

  lemma PageAppends(pages: seq<Page>, read: nat, toDate: int)
    requires read < |pages|
    ensures Kept(Items(pages[..read + 1]), toDate) ==
            Kept(Items(pages[..read]), toDate) + Kept(pages[read].items, toDate)
  {
    assert pages[..read + 1][..read] == pages[..read];
    KeptSplits(Items(pages[..read]), pages[read].items, toDate);
  }

  /** `stream_device_timeline` against the answers `pages`, request after request;
      `paths` are the requests it makes. */
  method Stream(machine: string, toDate: int, pages: seq<Page>)
    returns (yielded: seq<Event>, paths: seq<string>, end: End, read: nat)
    ensures read <= |pages| && yielded == Kept(Items(pages[..read]), toDate)
    ensures forall i :: 0 <= i < read ==> !pages[i].partial
    ensures forall i :: 0 <= i < read - 1 ==> !Last(pages[i], toDate)
    ensures end.Done? <==> read > 0 && Last(pages[read - 1], toDate)
    // a page is the last if it points nowhere, or past the last microsecond of the bound
    ensures forall page :: Last(page, toDate) <==>
      page.next.None? || (page.next.value.from.Some? && page.next.value.from.value >= (toDate + 1) * 10)
    ensures end.PartialResponse? <==> !end.Done? && read < |pages| && pages[read].partial
    ensures end.StillOpen? ==> read == |pages|
    // the first request is the window's, each other one follows the `Next` before it
    ensures |paths| == if end.Done? then read else read + 1
    ensures paths[0] == "mdeTimelineExperience/machines/" + machine + "/events"
    ensures forall i :: 0 < i < |paths| ==> pages[i - 1].next.Some? && paths[i] == NextRequestPath(pages[i - 1].next.value.url)
  {
    FirstPathIs(machine);
    hide Kept, Items, FirstPath, NextRequestPath;
    NothingRead(pages, toDate);
    yielded, paths, read := [], [FirstPath(machine)], 0;
    while read < |pages|
      invariant read <= |pages| && yielded == Kept(Items(pages[..read]), toDate)
      invariant forall i :: 0 <= i < read ==> !pages[i].partial && !Last(pages[i], toDate)
      invariant |paths| == read + 1 && paths[0] == FirstPath(machine)
      invariant forall i :: 0 < i < |paths| ==>
        pages[i - 1].next.Some? && paths[i] == NextRequestPath(pages[i - 1].next.value.url)
    {
      var data := pages[read];
      if data.partial {
        return yielded, paths, PartialResponse, read;
      }
      var fromPage := FilterPage(data.items, toDate);
      PageAppends(pages, read, toDate);
      yielded := yielded + fromPage;
      read := read + 1;
      if Last(data, toDate) {
        return yielded, paths, Done, read;
      }
      paths := paths + [NextRequestPath(data.next.value.url)];
    }
    return yielded, paths, StillOpen, read;
  }

  // ----------------------------------------------------------------- exactness

  /** The events with a readable time, in order. */
  function Timed(items: seq<Event>): seq<Event> {
    if items == [] then []
    else Timed(items[..|items| - 1]) + if items[|items| - 1].time.At? then [items[|items| - 1]] else []
  }

  /** The whole scroll: every page but the last points on, and what is still to come is
      never earlier than the `fromDate` that leads to it. */
  predicate Scroll(pages: seq<Page>) {
    && pages != [] && pages[|pages| - 1].next.None?
    && (forall k :: 0 <= k < |pages| - 1 ==> pages[k].next.Some?)
    && forall k :: 0 <= k < |pages| && pages[k].next.Some? && pages[k].next.value.from.Some? ==>
         AllAfter(pages[k + 1..], pages[k].next.value.from.value)
  }

  predicate AllAfter(pages: seq<Page>, ticks: int) {
    forall i, j :: 0 <= i < |pages| && 0 <= j < |pages[i].items| && pages[i].items[j].time.At? ==>
      pages[i].items[j].time.ticks >= ticks
  }

  lemma {:induction false} ItemsSplit(a: seq<Page>, b: seq<Page>)
    ensures Items(a + b) == Items(a) + Items(b)
  {
    if b == [] {
      assert a + b == a;
    } else {
      assert (a + b)[..|a + b| - 1] == a + b[..|b| - 1];
      ItemsSplit(a, b[..|b| - 1]);
    }
  }

  lemma {:induction false} TimedSplits(a: seq<Event>, b: seq<Event>)
    ensures Timed(a + b) == Timed(a) + Timed(b)
  {
    if b == [] {
      assert a + b == a;
    } else {
      assert (a + b)[..|a + b| - 1] == a + b[..|b| - 1];
      TimedSplits(a, b[..|b| - 1]);
    }
  }

  /** Nothing readable on pages that begin past the bound is due. */
  lemma {:induction false} LaterIsTooLate(items: seq<Event>, ticks: int, toDate: int)
    requires Micros(ticks) > toDate
    requires forall j :: 0 <= j < |items| && items[j].time.At? ==> items[j].time.ticks >= ticks
    ensures Timed(Kept(items, toDate)) == []
  {
    if items != [] {
      var rest, e := items[..|items| - 1], items[|items| - 1];
      LaterIsTooLate(rest, ticks, toDate);
      TimedSplits(Kept(rest, toDate), [e]);
      assert [e][..0] == [];
      assert Kept(rest, toDate) + [] == Kept(rest, toDate);
    }
  }

  lemma {:induction false} LaterPagesAreTooLate(pages: seq<Page>, ticks: int, toDate: int)
    requires Micros(ticks) > toDate && AllAfter(pages, ticks)
    ensures Timed(Kept(Items(pages), toDate)) == []
  {
    if pages != [] {
      var rest, page := pages[..|pages| - 1], pages[|pages| - 1];
      LaterPagesAreTooLate(rest, ticks, toDate);
      LaterIsTooLate(page.items, ticks, toDate);
      KeptSplits(Items(rest), page.items, toDate);
      TimedSplits(Kept(Items(rest), toDate), Kept(page.items, toDate));
    }
  }

  /** A stream that ends has yielded, among the events with readable times, exactly those
      of the whole scroll at or before the bound, in order and once each: the pages it
      did not ask for hold none. */
  lemma StreamIsExact(pages: seq<Page>, toDate: int, yielded: seq<Event>, read: nat)
    requires Scroll(pages) && 0 < read <= |pages| && Last(pages[read - 1], toDate)
    requires yielded == Kept(Items(pages[..read]), toDate)
    ensures Timed(yielded) == Timed(Kept(Items(pages), toDate))
  {
    assert pages == pages[..read] + pages[read..];
    ItemsSplit(pages[..read], pages[read..]);
    KeptSplits(Items(pages[..read]), Items(pages[read..]), toDate);
    TimedSplits(yielded, Kept(Items(pages[read..]), toDate));
    if pages[read - 1].next.None? {
      assert read == |pages|;
    } else {
      LaterPagesAreTooLate(pages[read..], pages[read - 1].next.value.from.value, toDate);
    }
  }

  /** Filtering keeps order and multiplicity, so nothing kept was not served. */
  lemma {:induction false} KeptCounts(items: seq<Event>, toDate: int, e: Event)
    ensures multiset(Kept(items, toDate))[e] ==
      if e.time.At? && e.time.ticks >= (toDate + 1) * 10 then 0 else multiset(items)[e]
  {
    if items != [] {
      assert items == items[..|items| - 1] + [items[|items| - 1]];
      KeptCounts(items[..|items| - 1], toDate, e);
    }
  }
}
