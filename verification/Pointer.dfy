/** The rendered JSON pointer of a shape path (`results.py`) and its decoding as in
    section 4 of RFC 6901. */
module Pointer {
  import opened Shape

  // ---------------------------------------------------------------------- escaping

  /** `str.replace` of one character. */
  function Replace(s: string, c: char, with: string): string {
    if s == "" then "" else (if s[0] == c then with else [s[0]]) + Replace(s[1..], c, with)
  }

  /** `value.replace("~", "~0").replace("/", "~1")`. */
  function Escape(name: string): string {
    Replace(Replace(name, '~', "~0"), '/', "~1")
  }

  /** Replacing a two-character sequence, from left to right. */
  function ReplacePair(s: string, a: char, b: char, with: char): string {
    if |s| < 2 then s
    else if s[0] == a && s[1] == b then [with] + ReplacePair(s[2..], a, b, with)
    else [s[0]] + ReplacePair(s[1..], a, b, with)
  }

  /** Section 4 of RFC 6901: first `~1` becomes `/`, then `~0` becomes `~`. */
  function Decode(segment: string): string {
    ReplacePair(ReplacePair(segment, '~', '1', '/'), '~', '0', '~')
  }

  function EscapeChar(c: char): string {
    if c == '~' then "~0" else if c == '/' then "~1" else [c]
  }

  lemma ReplaceStep(x: char, rest: string, c: char, with: string)
    ensures Replace([x] + rest, c, with) == (if x == c then with else [x]) + Replace(rest, c, with)
  {
    assert ([x] + rest)[1..] == rest;
  }

  lemma EscapeStep(c: char, rest: string)
    ensures Escape([c] + rest) == EscapeChar(c) + Escape(rest)
  {
    hide Replace;
    var tilde := Replace(rest, '~', "~0");
    ReplaceStep(c, rest, '~', "~0");
    if c == '~' {
      assert "~0" + tilde == ['~'] + (['0'] + tilde);
      ReplaceStep('~', ['0'] + tilde, '/', "~1");
      ReplaceStep('0', tilde, '/', "~1");
    } else {
      ReplaceStep(c, tilde, '/', "~1");
    }
  }

  /** The escaped text after the first decoding step: only the tildes are still escaped. */
  lemma {:induction false} FirstStep(name: string)
    ensures ReplacePair(Escape(name), '~', '1', '/') == Replace(name, '~', "~0")
  {
    if name != "" {
      var c, rest := name[0], name[1..];
      assert name == [c] + rest;
      FirstStep(rest);
      EscapeStep(c, rest);
      PairAfter(EscapeChar(c), Escape(rest));
    }
  }

  /** No pair begins inside an escaped character and ends outside it. */
  lemma PairAfter(unit: string, rest: string)
    requires unit == "~0" || unit == "~1" || (|unit| == 1 && unit[0] != '~')
    ensures ReplacePair(unit + rest, '~', '1', '/') ==
            (if unit == "~1" then "/" else unit) + ReplacePair(rest, '~', '1', '/')
  {
    hide ReplacePair;
    if unit == "~1" {
      PairMatches('~', '1', rest, '/');
      assert unit + rest == ['~', '1'] + rest;
    } else if unit == "~0" {
      PairMisses('~', ['0'] + rest, '~', '1', '/');
      PairMisses('0', rest, '~', '1', '/');
      assert unit + rest == ['~'] + (['0'] + rest);
    } else {
      PairMisses(unit[0], rest, '~', '1', '/');
      assert unit == [unit[0]];
    }
  }

  lemma PairMatches(a: char, b: char, rest: string, with: char)
    ensures ReplacePair([a, b] + rest, a, b, with) == [with] + ReplacePair(rest, a, b, with)
  {
    assert ([a, b] + rest)[2..] == rest;
  }

  lemma PairMisses(x: char, rest: string, a: char, b: char, with: char)
    requires x != a || rest == "" || rest[0] != b
    ensures ReplacePair([x] + rest, a, b, with) == [x] + ReplacePair(rest, a, b, with)
  {
    assert ([x] + rest)[1..] == rest;
  }

  lemma {:induction false} SecondStep(name: string)
    ensures ReplacePair(Replace(name, '~', "~0"), '~', '0', '~') == name
  {
    if name != "" {
      var c, rest := name[0], Replace(name[1..], '~', "~0");
      SecondStep(name[1..]);
      var all := (if c == '~' then "~0" else [c]) + rest;
      if c == '~' {
        assert all[2..] == rest;
      } else if rest != "" {
        assert all[1..] == rest;
      } else {
        assert name[1..] == "";
      }
      assert name == [c] + name[1..];
    }
  }

  /** Decoding undoes escaping, for every name. */
  lemma EscapeRoundTrip(name: string)
    ensures Decode(Escape(name)) == name
  {
    FirstStep(name);
    SecondStep(name);
  }

  predicate NoSlash(s: string) {
    forall i :: 0 <= i < |s| ==> s[i] != '/'
  }

  lemma {:induction false} EscapedHasNoSlash(name: string)
    ensures NoSlash(Escape(name))
  {
    if name != "" {
      EscapedHasNoSlash(name[1..]);
      assert name == [name[0]] + name[1..];
      EscapeStep(name[0], name[1..]);
    }
  }

  // ------------------------------------------------------------------- the pointer

  /** The name a step decodes to: an array step is rendered as the wildcard. */
  function NameOf(step: Step): string {
    match step
    case Property(name) => name
    case Item => "*"
  }

  function Segment(step: Step): string {
    match step
    case Property(name) => Escape(name)
    case Item => "*"
  }

  /** `_shape_pointer` of a nonempty path. */
  function Render(path: Path): string {
    if path == [] then "" else "/" + Segment(path[0]) + Render(path[1..])
  }

  /** The text before the first slash, and what follows it. */
  function Head(s: string): string {
    if s == "" || s[0] == '/' then "" else [s[0]] + Head(s[1..])
  }

  lemma {:induction false} HeadIs(s: string, rest: string)
    requires NoSlash(s) && (rest == "" || rest[0] == '/')
    ensures Head(s + rest) == s
  {
    if s == "" {
      assert s + rest == rest;
    } else {
      assert (s + rest)[1..] == s[1..] + rest;
      HeadIs(s[1..], rest);
    }
  }

  lemma {:induction false} HeadIsPrefix(s: string)
    ensures |Head(s)| <= |s|
  {
    if s != "" && s[0] != '/' {
      HeadIsPrefix(s[1..]);
    }
  }

  /** Split a pointer at its slashes. */
  function Split(pointer: string): seq<string>
    decreases |pointer|
  {
    if pointer == "" then []
    else
      HeadIsPrefix(pointer[1..]);
      [Head(pointer[1..])] + Split(pointer[1..][|Head(pointer[1..])|..])
  }

  function Names(path: Path): seq<string> {
    if path == [] then [] else [NameOf(path[0])] + Names(path[1..])
  }

  function DecodeAll(segments: seq<string>): seq<string> {
    if segments == [] then [] else [Decode(segments[0])] + DecodeAll(segments[1..])
  }

  lemma SegmentDecodes(step: Step)
    ensures NoSlash(Segment(step)) && Decode(Segment(step)) == NameOf(step)
  {
    if step.Property? {
      EscapedHasNoSlash(step.name);
      EscapeRoundTrip(step.name);
    }
  }

  /** Splitting a pointer at `/` and decoding each segment gives back the path's names. */
  lemma {:induction false} PointerRoundTrip(path: Path)
    ensures DecodeAll(Split(Render(path))) == Names(path)
  {
    hide Segment, Decode, NameOf, NoSlash, Head;
    if path != [] {
      var seg, rest := Segment(path[0]), Render(path[1..]);
      SegmentDecodes(path[0]);
      PointerRoundTrip(path[1..]);
      assert rest == "" || rest[0] == '/';
      HeadIs(seg, rest);
      var pointer := "/" + seg + rest;
      assert pointer[1..] == seg + rest && (seg + rest)[|seg|..] == rest;
      assert Split(pointer) == [seg] + Split(rest);
      assert ([seg] + Split(rest))[1..] == Split(rest);
    }
  }

  /** Two steps look alike only if they are equal, or one goes through an array and the
      other to a property named `*`. */
  predicate Alike(a: Step, b: Step) {
    a == b || (a.Item? && b == Property("*")) || (b.Item? && a == Property("*"))
  }

  predicate AllAlike(p: Path, q: Path) {
    |p| == |q| && forall i :: 0 <= i < |p| ==> Alike(p[i], q[i])
  }

  lemma {:induction false} SameNames(p: Path, q: Path)
    ensures Names(p) == Names(q) <==> AllAlike(p, q)
  {
    NamesCount(p);
    NamesCount(q);
    if p != [] && q != [] {
      SameNames(p[1..], q[1..]);
      assert Names(p)[0] == NameOf(p[0]) && Names(p)[1..] == Names(p[1..]);
      assert Names(q)[0] == NameOf(q[0]) && Names(q)[1..] == Names(q[1..]);
      assert p == [p[0]] + p[1..] && q == [q[0]] + q[1..];
    }
  }

  lemma {:induction false} NamesCount(p: Path)
    ensures |Names(p)| == |p|
  {
    if p != [] {
      NamesCount(p[1..]);
    }
  }

  lemma {:induction false} AlikeRendersTheSame(p: Path, q: Path)
    requires AllAlike(p, q)
    ensures Render(p) == Render(q)
  {
    if p != [] {
      assert Alike(p[0], q[0]);
      StarIsPlain();
      AlikeRendersTheSame(p[1..], q[1..]);
    }
  }

  lemma StarIsPlain()
    ensures Escape("*") == "*"
  {
    EscapeStep('*', "");
    assert "*" == ['*'] + "";
  }

  /** Two paths share a pointer exactly where each step is the same but for an array step
      against a property named `*`. */
  lemma PointersCollideIff(p: Path, q: Path)
    ensures Render(p) == Render(q) <==> AllAlike(p, q)
  {
    PointerRoundTrip(p);
    PointerRoundTrip(q);
    SameNames(p, q);
    if AllAlike(p, q) {
      AlikeRendersTheSame(p, q);
    }
  }
}
