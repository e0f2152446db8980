/** Small datatypes shared by every module. */
module Common {

  datatype Option<+T> = None | Some(value: T) {
    function GetOr(default: T): T {
      if Some? then value else default
    }
  }

  function Min(a: int, b: int): int {
    if a <= b then a else b
  }

  function Max(a: int, b: int): int {
    if a >= b then a else b
  }

  /** ASCII lower-casing, the part of `str.lower` that identifiers and file names use. */
  function LowerChar(c: char): char {
    if 'A' <= c <= 'Z' then c - 'A' + 'a' else c
  }

  function Lower(s: string): (r: string)
    ensures |r| == |s|
    ensures forall i :: 0 <= i < |s| ==> r[i] == LowerChar(s[i])
  {
    seq(|s|, i requires 0 <= i < |s| => LowerChar(s[i]))
  }

  predicate Distinct<T(==)>(s: seq<T>) {
    forall i, j :: 0 <= i < j < |s| ==> s[i] != s[j]
  }

  /** Code-point order, as `sorted` uses on text. */
  predicate LexLeq(a: string, b: string) {
    if a == [] then true
    else if b == [] then false
    else if a[0] != b[0] then a[0] < b[0]
    else LexLeq(a[1..], b[1..])
  }

  // ------------------------------------------------------------------- in numbers

  /** Lower case moves the 26 ASCII capitals by 32 and leaves everything else. */
  lemma LowerByCode(c: char)
    ensures 65 <= c as int <= 90 ==> LowerChar(c) as int == c as int + 32
    ensures !(65 <= c as int <= 90) ==> LowerChar(c) == c
  {
  }

  /** So two texts agree in lower case exactly if they have the same length and differ, if
      anywhere, in the case of a letter. */
  lemma SameButForCase(a: string, b: string)
    ensures Lower(a) == Lower(b) <==>
      |a| == |b| && forall i :: 0 <= i < |a| ==>
        || a[i] == b[i]
        || (65 <= a[i] as int <= 90 && b[i] as int == a[i] as int + 32)
        || (65 <= b[i] as int <= 90 && a[i] as int == b[i] as int + 32)
  {
    if |a| == |b| {
      forall i | 0 <= i < |a|
        ensures Lower(a)[i] == Lower(b)[i] <==>
          || a[i] == b[i]
          || (65 <= a[i] as int <= 90 && b[i] as int == a[i] as int + 32)
          || (65 <= b[i] as int <= 90 && a[i] as int == b[i] as int + 32)
      {
        LowerByCode(a[i]);
        LowerByCode(b[i]);
      }
      if Lower(a) == Lower(b) {
        assert forall i :: 0 <= i < |a| ==> Lower(a)[i] == Lower(b)[i];
      }
    }
  }

  /** The order of texts is decided at the first place where they differ, or by length. */
  lemma {:induction false} LexDecides(common: string, a: string, b: string)
    requires a == "" || b == "" || a[0] != b[0]
    ensures LexLeq(common + a, common + b) <==> a == "" || (b != "" && a[0] as int < b[0] as int)
  {
    if common == "" {
      assert common + a == a && common + b == b;
    } else {
      assert (common + a)[1..] == common[1..] + a && (common + b)[1..] == common[1..] + b;
      LexDecides(common[1..], a, b);
    }
  }

  lemma {:induction false} LexTotal(a: string, b: string)
    ensures LexLeq(a, b) || LexLeq(b, a)
  {
    if a != [] && b != [] && a[0] == b[0] {
      LexTotal(a[1..], b[1..]);
    }
  }

  lemma {:induction false} LexTransitive(a: string, b: string, c: string)
    requires LexLeq(a, b) && LexLeq(b, c)
    ensures LexLeq(a, c)
  {
    if a != [] && a[0] == b[0] == c[0] {
      LexTransitive(a[1..], b[1..], c[1..]);
    }
  }

  lemma {:induction false} LexAntisymmetric(a: string, b: string)
    requires LexLeq(a, b) && LexLeq(b, a)
    ensures a == b
  {
    if a != [] && a[0] == b[0] {
      LexAntisymmetric(a[1..], b[1..]);
      assert a == [a[0]] + a[1..] && b == [b[0]] + b[1..];
    }
  }
}
