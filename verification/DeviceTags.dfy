/**
  Device tag replacement (`device_management.py`): read, compare, replace, read again,
  while any other writer may change the tags between any two requests.
*/
module DeviceTags {
  import opened Common

  // ------------------------------------------------------------------ tag collections

  const MAX_TAGS := 1024

  /** One element of a tag response: a name, a model object with or without a text name,
      or anything else. */
  datatype TagValue = Text(name: string) | Model(modelName: Option<string>) | OtherValue

  function NameOf(value: TagValue): Option<string> {
    match value
    case Text(name) => Some(name)
    case Model(name) => name
    case OtherValue => None
  }

  /** The characters `str.strip` removes. */
  predicate IsSpace(c: char) {
    var n := c as int;
    || 9 <= n <= 13 || 28 <= n <= 32 || n == 0x85 || n == 0xA0 || n == 0x1680
    || 0x2000 <= n <= 0x200A || n == 0x2028 || n == 0x2029 || n == 0x202F || n == 0x205F || n == 0x3000
  }

  /** `_tag`: a nonempty bounded name without control characters. */
  predicate ValidTag(tag: string) {
    && (exists i :: 0 <= i < |tag| && !IsSpace(tag[i]))
    && |tag| <= 1024
    && forall i :: 0 <= i < |tag| ==> !(tag[i] as int < 32 || tag[i] as int == 127)
  }

  predicate ValidTags(tags: seq<string>) {
    && |tags| <= MAX_TAGS && Distinct(tags)
    && forall i :: 0 <= i < |tags| ==> ValidTag(tags[i])
  }

  /** A response the client accepts: the tags it names. */
  predicate Readable(values: seq<TagValue>, tags: seq<string>) {
    && |values| == |tags| && ValidTags(tags)
    && forall i :: 0 <= i < |values| ==> NameOf(values[i]) == Some(tags[i])
  }

  function Names(tags: seq<string>): set<string> {
    set tag | tag in tags
  }

  lemma NamesAppend(tags: seq<string>, tag: string)
    ensures Names(tags + [tag]) == Names(tags) + {tag}
    ensures Distinct(tags) && tag !in Names(tags) ==> Distinct(tags + [tag])
    ensures !Distinct(tags) || tag in Names(tags) ==> !Distinct(tags + [tag])
  {
    var all := tags + [tag];
    assert forall i :: 0 <= i < |tags| ==> all[i] == tags[i];
    assert all[|tags|] == tag;
    if !Distinct(tags) {
      var i, j :| 0 <= i < j < |tags| && tags[i] == tags[j];
      assert all[i] == all[j];
    }
    if tag in Names(tags) {
      var i :| 0 <= i < |tags| && tags[i] == tag;
      assert all[i] == all[|tags|];
    }
  }

  /** Comparing the size of the set with the size of the list finds every duplicate. */
  lemma {:induction false} DistinctBySize(tags: seq<string>)
    ensures |Names(tags)| <= |tags|
    ensures |Names(tags)| == |tags| <==> Distinct(tags)
  {
    if tags != [] {
      var rest, last := tags[..|tags| - 1], tags[|tags| - 1];
      assert tags == rest + [last];
      DistinctBySize(rest);
      NamesAppend(rest, last);
    }
  }

  lemma OneReading(values: seq<TagValue>, a: seq<string>, b: seq<string>)
    requires |values| == |a| == |b|
    requires forall i :: 0 <= i < |values| ==> NameOf(values[i]) == Some(a[i]) == Some(b[i])
    ensures a == b
  {
    assert forall i :: 0 <= i < |values| ==> Some(a[i]) == Some(b[i]);
  }

  lemma UniqueReading(values: seq<TagValue>, a: seq<string>)
    requires Readable(values, a)
    ensures forall b :: Readable(values, b) ==> b == a
  {
    forall b | Readable(values, b) ensures b == a {
      OneReading(values, a, b);
    }
  }

  /** `_observed_tags`. */
  method Observed(values: seq<TagValue>) returns (tags: Option<seq<string>>)
    ensures tags.Some? ==> Readable(values, tags.value)
    ensures tags.None? ==> forall t :: !Readable(values, t)
  {
    if |values| > MAX_TAGS {
      return None;
    }
    var result := [];
    for i := 0 to |values|
      invariant |result| == i
      invariant forall j :: 0 <= j < i ==> NameOf(values[j]) == Some(result[j]) && ValidTag(result[j])
    {
      var name := NameOf(values[i]);
      if name.None? || !ValidTag(name.value) {
        return None;
      }
      result := result + [name.value];
    }
    DistinctBySize(result);
    if |Names(result)| != |result| {
      forall t | Readable(values, t) ensures t == result {
        OneReading(values, t, result);
      }
      return None;
    }
    return Some(result);
  }

  /** `_requested_tags`. */
  method Requested(tags: seq<string>) returns (ok: bool)
    ensures ok <==> ValidTags(tags)
  {
    if |tags| > MAX_TAGS {
      return false;
    }
    for i := 0 to |tags|
      invariant forall j :: 0 <= j < i ==> ValidTag(tags[j])
    {
      if !ValidTag(tags[i]) {
        return false;
      }
    }
    DistinctBySize(tags);
    return |Names(tags)| == |tags|;
  }

  // -------------------------------------------------------------------- the portal

  /** What happens to one request: it is answered, it fails, or its answer is lost after
      the portal has acted on it. */
  datatype Fate = Answered | Refused | Lost

  datatype Write = Write(manual: seq<TagValue>, system: seq<TagValue>)

  /** What this client did, in order. */
  datatype Event = Read(manual: set<string>) | Replaced(tags: seq<string>)

  datatype Outcome =
    | Unchanged(manual: seq<string>)
    | Changed(manual: seq<string>)
    | Usage | Conflict | Unreadable | RequestFailed

  /** The tags of one device. `others(k)` is what other writers left just before request
      number `k`, if they wrote anything. */
  class Portal {
    const others: nat -> Option<Write>
    const fate: nat -> Fate
    const device: nat -> bool
    var manual: seq<TagValue>
    var system: seq<TagValue>
    var clock: nat
    var trace: seq<Event>

    constructor (manual: seq<TagValue>, system: seq<TagValue>, others: nat -> Option<Write>,
                 fate: nat -> Fate, device: nat -> bool)
      ensures this.manual == manual && this.system == system && clock == 0 && trace == []
      ensures this.others == others && this.fate == fate && this.device == device
    {
      this.manual, this.system, this.others, this.fate, this.device := manual, system, others, fate, device;
      clock, trace := 0, [];
    }

    /** Nobody else writes and every request is answered, from now on. */
    ghost predicate Quiet()
      reads this
    {
      forall k :: k >= clock ==> others(k).None? && fate(k).Answered? && device(k)
    }

    /** Nobody else writes, every request is answered, and the answers are readable. */
    ghost predicate Alone()
      reads this
    {
      Quiet() && (exists t :: Readable(manual, t)) && (exists t :: Readable(system, t))
    }

    /** Time passes until the next request: others may write. */
    method Arrive() returns (k: nat)
      modifies this
      ensures k == old(clock) && clock == k + 1 && trace == old(trace)
      ensures manual == if others(k).Some? then others(k).value.manual else old(manual)
      ensures system == if others(k).Some? then others(k).value.system else old(system)
    {
      k := clock;
      clock := clock + 1;
      if others(k).Some? {
        manual, system := others(k).value.manual, others(k).value.system;
      }
    }

    /** `get_device`, with its identity check. */
    method GetDevice() returns (outcome: Option<Outcome>)
      modifies this
      ensures clock == old(clock) + 1 && trace == old(trace)
      ensures others(old(clock)).None? ==> manual == old(manual) && system == old(system)
      ensures outcome.None? <==> fate(old(clock)).Answered? && device(old(clock))
      ensures outcome.Some? ==> outcome == Some(if fate(old(clock)).Answered? then Unreadable else RequestFailed)
    {
      var k := Arrive();
      if !fate(k).Answered? {
        return Some(RequestFailed);
      }
      return if device(k) then None else Some(Unreadable);
    }

    /** `get_device_tags`: the manual tags, as they are at the moment of the answer. */
    method GetDeviceTags() returns (tags: seq<string>, failure: Option<Outcome>)
      modifies this
      ensures clock == old(clock) + 1
      ensures others(old(clock)).None? ==> manual == old(manual) && system == old(system)
      ensures failure.None? ==> Readable(manual, tags) && trace == old(trace) + [Read(Names(tags))]
      ensures failure.Some? ==> trace == old(trace) && (failure.value.Unreadable? || failure.value.RequestFailed?)
      ensures failure.Some? <==>
        || !fate(old(clock)).Answered? || (forall t :: !Readable(manual, t)) || (forall t :: !Readable(system, t))
      ensures failure.Some? ==> failure == Some(if fate(old(clock)).Answered? then Unreadable else RequestFailed)
    {
      tags := [];
      var k := Arrive();
      if !fate(k).Answered? {
        return tags, Some(RequestFailed);
      }
      var observed := Observed(manual);
      if observed.None? {
        return tags, Some(Unreadable);
      }
      var builtIn := Observed(system);
      if builtIn.None? {
        return tags, Some(Unreadable);
      }
      trace := trace + [Read(Names(observed.value))];
      assert Readable(manual, observed.value) && Readable(system, builtIn.value);
      return observed.value, None;
    }

    /** The replacement request; it is never repeated. */
    method Replace(tags: seq<string>) returns (ok: bool)
      modifies this
      ensures clock == old(clock) + 1 && trace == old(trace) + [Replaced(tags)]
      ensures ok == fate(old(clock)).Answered?
      // it takes effect unless it is refused, also if its answer is lost
      ensures !fate(old(clock)).Refused? ==> manual == AsValues(tags)
      ensures fate(old(clock)).Refused? ==>
        manual == if others(old(clock)).Some? then others(old(clock)).value.manual else old(manual)
      ensures others(old(clock)).None? ==> system == old(system)
    {
      var k := Arrive();
      trace := trace + [Replaced(tags)];
      if !fate(k).Refused? {
        manual := AsValues(tags);
      }
      return fate(k).Answered?;
    }

    /** `set_device_tags`. */
    method SetDeviceTags(tags: seq<string>, expected: seq<string>) returns (outcome: Outcome)
      modifies this
      ensures |old(trace)| <= |trace| && trace[..|old(trace)|] == old(trace)
      ensures Careful(trace[|old(trace)|..], tags, expected, outcome)
      ensures !ValidTags(tags) || !ValidTags(expected) ==>
        outcome.Usage? && trace == old(trace) && manual == old(manual)
      ensures outcome.Usage? ==> !ValidTags(tags) || !ValidTags(expected)
      // the device is asked for first, and nothing else is done without its answer
      ensures ValidTags(tags) && ValidTags(expected) && !(fate(old(clock)).Answered? && device(old(clock))) ==>
        && outcome == (if fate(old(clock)).Answered? then Unreadable else RequestFailed)
        && trace == old(trace) && clock == old(clock) + 1
      // a replacement that the portal did not confirm is no success
      ensures outcome.Changed? ==> fate(old(clock) + 2).Answered? && fate(old(clock) + 3).Answered?
      // alone, on a readable device that still has the expected tags, it succeeds
      ensures old(Alone()) && ValidTags(tags) && ValidTags(expected) && HoldsSet(old(manual), Names(expected)) ==>
        && Alone() && (outcome.Changed? || outcome.Unchanged?)
        && (outcome.Unchanged? ==> manual == old(manual) && Names(tags) == Names(expected))
        && (outcome.Changed? ==> manual == AsValues(tags))
    {
      hide ValidTag, ValidTags, Readable, AsValues;
      var okTags := Requested(tags);
      var okExpected := Requested(expected);
      if !okTags || !okExpected {
        return Usage;
      }
      var failed := GetDevice();
      if failed.Some? {
        return failed.value;
      }
      var current, failure := GetDeviceTags();
      if failure.Some? {
        return failure.value;
      }
      UniqueReading(manual, current);
      assert trace[|old(trace)|..] == [Read(Names(current))];
      if Names(current) != Names(expected) {
        return Conflict;
      }
      if Names(tags) == Names(current) {
        return Unchanged(current);
      }
      var sent := Replace(tags);
      assert trace[|old(trace)|..] == [Read(Names(current)), Replaced(tags)];
      if !sent {
        return RequestFailed;
      }
      AsValuesAreReadable(tags);
      UniqueReading(AsValues(tags), tags);
      var after;
      after, failure := GetDeviceTags();
      if failure.Some? {
        return failure.value;
      }
      assert trace[|old(trace)|..] == [Read(Names(current)), Replaced(tags), Read(Names(after))];
      if Names(after) != Names(tags) {
        return Conflict;
      }
      return Changed(after);
    }

    /** `update_device_tag`: replace the tags just read by the same tags with or without
        one; the order of the others is kept. */
    method UpdateDeviceTag(tag: string, remove: bool) returns (outcome: Outcome)
      modifies this
      ensures |old(trace)| <= |trace| && trace[..|old(trace)|] == old(trace)
      ensures var events := trace[|old(trace)|..];
              && CarefulUpdate(events, tag, remove, outcome)
              && (!ValidTag(tag) ==> outcome.Usage? && events == [])
      // alone, on a readable device: it succeeds unless a new tag would exceed the bound
      ensures old(Alone()) && ValidTag(tag) ==> UpdatedAlone(old(manual), manual, tag, remove, outcome)
    {
      NothingShown(tag, remove);
      hide Names, Desired, ValidTag, ValidTags, Careful, CarefulUpdate, UpdatedAlone;
      if !ValidTag(tag) {
        assert trace[|old(trace)|..] == [];
        return Usage;
      }
      ghost var alone, before := Alone(), manual;
      var current, failure := GetDeviceTags();
      if failure.Some? {
        assert trace[|old(trace)|..] == [];
        return failure.value;
      }
      var desired := Without(current, tag);
      if !remove {
        desired := desired + [tag];
      }
      DesiredTags(current, tag, remove, desired);
      ghost var read := trace;
      outcome := SetDeviceTags(desired, current);
      ghost var events := trace[|read|..];
      assert trace == read + events == old(trace) + ([Read(Names(current))] + events);
      UpdateIsCareful(events, current, desired, tag, remove, outcome);
      if alone {
        UpdateAlone(before, manual, current, desired, tag, remove, outcome);
      }
    }
  }

  /** What an update that nothing disturbs leads to. */
  ghost predicate UpdatedAlone(before: seq<TagValue>, after: seq<TagValue>, tag: string, remove: bool, outcome: Outcome) {
    forall current | Readable(before, current) ::
      if remove || tag in current || |current| < MAX_TAGS then
        (outcome.Changed? || outcome.Unchanged?) && HoldsSet(after, Desired(Names(current), tag, remove))
      else
        outcome.Usage? && after == before
  }

  /** The values are readable and name exactly the tags of this set. */
  ghost predicate HoldsSet(values: seq<TagValue>, tags: set<string>) {
    exists t :: Readable(values, t) && Names(t) == tags
  }

  lemma UpdateAlone(before: seq<TagValue>, after: seq<TagValue>, current: seq<string>, desired: seq<string>,
                    tag: string, remove: bool, outcome: Outcome)
    requires Readable(before, current) && Names(desired) == Desired(Names(current), tag, remove)
    requires ValidTags(desired) <==> remove || tag in current || |current| < MAX_TAGS
    requires !ValidTags(desired) ==> outcome.Usage? && after == before
    requires ValidTags(desired) ==>
      (outcome.Unchanged? && Names(desired) == Names(current) && after == before) ||
      (outcome.Changed? && after == AsValues(desired))
    ensures UpdatedAlone(before, after, tag, remove, outcome)
  {
    forall c | Readable(before, c) ensures c == current {
      OneReading(before, c, current);
    }
    if ValidTags(desired) {
      AsValuesAreReadable(desired);
      assert HoldsSet(after, Names(desired));
    }
  }

  function Without(tags: seq<string>, tag: string): seq<string> {
    if tags == [] then []
    else
      var rest := Without(tags[..|tags| - 1], tag);
      if tags[|tags| - 1] == tag then rest else rest + [tags[|tags| - 1]]
  }

  function Desired(current: set<string>, tag: string, remove: bool): set<string> {
    if remove then current - {tag} else current + {tag}
  }

  lemma {:induction false} WithoutIs(tags: seq<string>, tag: string)
    requires Distinct(tags)
    ensures Names(Without(tags, tag)) == Names(tags) - {tag} && Distinct(Without(tags, tag))
    ensures |Without(tags, tag)| == if tag in tags then |tags| - 1 else |tags|
  {
    if tags != [] {
      var rest, last := tags[..|tags| - 1], tags[|tags| - 1];
      assert tags == rest + [last];
      WithoutIs(rest, tag);
      NamesAppend(rest, last);
      NamesAppend(Without(rest, tag), last);
      assert last !in rest;
    }
  }

  /** What is asked for: the tags read with or without the one, and when that is allowed. */
  lemma DesiredTags(current: seq<string>, tag: string, remove: bool, desired: seq<string>)
    requires ValidTags(current) && ValidTag(tag)
    requires desired == Without(current, tag) + if remove then [] else [tag]
    ensures Names(desired) == Desired(Names(current), tag, remove)
    ensures ValidTags(desired) <==> remove || tag in current || |current| < MAX_TAGS
  {
    WithoutIs(current, tag);
    NamesAppend(Without(current, tag), tag);
    assert Without(current, tag) + [] == Without(current, tag);
    forall i | 0 <= i < |desired| ensures ValidTag(desired[i]) {
      assert desired[i] in Names(desired);
    }
  }

  /** What one update shows: a replacement is sent only while the tags still are those it
      was computed from, and success means the last read is the first plus or minus
      exactly the one tag. */
  predicate CarefulUpdate(events: seq<Event>, tag: string, remove: bool, outcome: Outcome) {
    && |events| <= 4
    && (forall i :: 0 <= i < |events| && events[i].Replaced? ==>
          && i == 2 && events[0].Read? && events[1] == events[0]
          && Names(events[2].tags) == Desired(events[0].manual, tag, remove)
          && Names(events[2].tags) != events[0].manual)
    && (outcome.Changed? || outcome.Unchanged? ==>
          && |events| >= 2 && events[0].Read? && events[|events| - 1].Read?
          && events[|events| - 1].manual == Desired(events[0].manual, tag, remove) == Names(outcome.manual))
  }

  function AsValues(tags: seq<string>): seq<TagValue> {
    seq(|tags|, i requires 0 <= i < |tags| => Text(tags[i]))
  }

  lemma AsValuesAreReadable(tags: seq<string>)
    requires ValidTags(tags)
    ensures Readable(AsValues(tags), tags)
  {
  }

  /** What one replacement attempt shows: nothing is sent unless the read just before it
      found exactly the expected tags, at most one replacement is sent, and success is
      reported only after the requested tags have been read. */
  predicate Careful(events: seq<Event>, tags: seq<string>, expected: seq<string>, outcome: Outcome) {
    && |events| <= 3
    && (forall i :: 0 <= i < |events| && events[i].Replaced? ==>
          && i == 1 && events[0] == Read(Names(expected))
          && events[i].tags == tags && Names(tags) != Names(expected))
    && (outcome.Unchanged? ==> events == [Read(Names(tags))] && Names(tags) == Names(expected) == Names(outcome.manual))
    && (outcome.Changed? ==>
          && events == [Read(Names(expected)), Replaced(tags), Read(Names(tags))]
          && Names(outcome.manual) == Names(tags))
  }

  lemma UpdateIsCareful(events: seq<Event>, current: seq<string>, desired: seq<string>, tag: string, remove: bool,
                        outcome: Outcome)
    requires Careful(events, desired, current, outcome) && Names(desired) == Desired(Names(current), tag, remove)
    ensures CarefulUpdate([Read(Names(current))] + events, tag, remove, outcome)
  {
    hide Names, Desired;
    var all := [Read(Names(current))] + events;
    assert forall i :: 0 <= i < |events| ==> all[i + 1] == events[i];
    forall i | 0 <= i < |all| && all[i].Replaced?
      ensures i == 2 && all[1] == all[0] && Names(all[2].tags) == Desired(Names(current), tag, remove)
      ensures Names(all[2].tags) != Names(current)
    {
      assert events[i - 1].Replaced?;
    }
  }

  lemma NothingShown(tag: string, remove: bool)
    ensures forall o: Outcome :: !o.Changed? && !o.Unchanged? ==> CarefulUpdate([], tag, remove, o)
  {
  }

  // ------------------------------------------------------------------ valid names

  /** A valid name has 1 to 1024 characters, no control character among them and some that
      is not a space, by their code points. */
  lemma ValidTagIs(tag: string)
    ensures ValidTag(tag) <==>
      && 1 <= |tag| <= 1024
      && (forall c :: c in tag ==> 32 <= c as int && c as int != 127)
      && (exists c :: c in tag && c as int != 32 && c as int != 133 && c as int != 160 && c as int != 5760
                      && !(8192 <= c as int <= 8202) && c as int !in {8232, 8233, 8239, 8287, 12288})
  {
    if ValidTag(tag) {
      var i :| 0 <= i < |tag| && !IsSpace(tag[i]);
      assert tag[i] in tag;
    } else if 1 <= |tag| <= 1024 && forall c :: c in tag ==> 32 <= c as int && c as int != 127 {
      forall c | c in tag
        ensures c as int in {32, 133, 160, 5760, 8232, 8233, 8239, 8287, 12288} || 8192 <= c as int <= 8202
      {
        var i :| 0 <= i < |tag| && tag[i] == c;
        assert forall k :: 0 <= k < |tag| ==> tag[k] in tag;
        assert IsSpace(tag[i]);
      }
    }
  }

  /** A list is valid up to 1024 names, all valid, none twice. */
  lemma ValidTagsAre(tags: seq<string>)
    ensures ValidTags(tags) <==>
      && |tags| <= 1024 && (forall tag :: tag in tags ==> ValidTag(tag))
      && forall i, j :: 0 <= i < |tags| && 0 <= j < |tags| && tags[i] == tags[j] ==> i == j
  {
    hide ValidTag;
  }
}
