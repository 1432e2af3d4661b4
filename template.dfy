/** JavaScript template literals: `lit0${v0}lit1${v1}...litN`, the literal
    pieces interleaved with the interpolated values. */
module Template {

  function Interpolate(lits: seq<string>, vals: seq<string>): (r: string)
    requires |lits| == |vals| + 1
    decreases |vals|
  {
    if vals == [] then lits[0] else lits[0] + vals[0] + Interpolate(lits[1..], vals[1..])
  }

  /** Where value k starts in the interpolated text. */
  function Offset(lits: seq<string>, vals: seq<string>, k: nat): nat
    requires |lits| == |vals| + 1 && k < |vals|
    decreases k
  {
    if k == 0 then |lits[0]| else |lits[0]| + |vals[0]| + Offset(lits[1..], vals[1..], k - 1)
  }

  lemma StartsWithFirstLiteral(lits: seq<string>, vals: seq<string>)
    requires |lits| == |vals| + 1
    ensures |lits[0]| <= |Interpolate(lits, vals)|
    ensures Interpolate(lits, vals)[..|lits[0]|] == lits[0]
  {
  }

  lemma SliceOfConcat(x: string, y: string, i: nat, j: nat)
    requires i <= j <= |y|
    ensures (x + y)[|x| + i..|x| + j] == y[i..j]
  {
  }

  lemma {:induction false} OffsetStep(lits: seq<string>, vals: seq<string>, k: nat)
    requires |lits| == |vals| + 1 && k + 1 < |vals|
    ensures Offset(lits, vals, k + 1) == Offset(lits, vals, k) + |vals[k]| + |lits[k + 1]|
    decreases k
  {
    if k > 0 {
      OffsetStep(lits[1..], vals[1..], k - 1);
    }
  }

  /** Value k appears verbatim at its offset, right after literal k and right
      before literal k + 1. */
  lemma {:induction false} InterpolatePlacement(lits: seq<string>, vals: seq<string>, k: nat)
    requires |lits| == |vals| + 1 && k < |vals|
    ensures var p, a := Interpolate(lits, vals), Offset(lits, vals, k);
            && |lits[k]| <= a && a + |vals[k]| + |lits[k + 1]| <= |p|
            && p[a - |lits[k]|..a] == lits[k]
            && p[a..a + |vals[k]|] == vals[k]
            && p[a + |vals[k]|..a + |vals[k]| + |lits[k + 1]|] == lits[k + 1]
    decreases k
  {
    var head := lits[0] + vals[0];
    var rest := Interpolate(lits[1..], vals[1..]);
    assert Interpolate(lits, vals) == head + rest;
    if k == 0 {
      StartsWithFirstLiteral(lits[1..], vals[1..]);
      SliceOfConcat(head, rest, 0, |lits[1]|);
    } else {
      InterpolatePlacement(lits[1..], vals[1..], k - 1);
      var b := Offset(lits[1..], vals[1..], k - 1);
      assert lits[1..][k - 1] == lits[k] && vals[1..][k - 1] == vals[k] && lits[1..][k] == lits[k + 1];
      SliceOfConcat(head, rest, b - |lits[k]|, b);
      SliceOfConcat(head, rest, b, b + |vals[k]|);
      SliceOfConcat(head, rest, b + |vals[k]|, b + |vals[k]| + |lits[k + 1]|);
    }
  }

  /** A piece of text that ends in `tail` has `tail` as its last characters. */
  lemma PieceSuffix(p: string, a: nat, head: string, tail: string)
    requires |head| + |tail| <= a <= |p| && p[a - |head| - |tail|..a] == head + tail
    ensures p[a - |tail|..a] == tail
  {
    assert p[a - |tail|..a] == p[a - |head| - |tail|..a][|head|..];
  }

  /** When literal k ends in `tail`, value k stands right after `tail`. */
  lemma InterpolateAfterSuffix(lits: seq<string>, vals: seq<string>, k: nat, head: string, tail: string)
    requires |lits| == |vals| + 1 && k < |vals| && lits[k] == head + tail
    ensures var p, a := Interpolate(lits, vals), Offset(lits, vals, k);
            && |tail| <= a && a + |vals[k]| <= |p|
            && p[a - |tail|..a] == tail
            && p[a..a + |vals[k]|] == vals[k]
  {
    InterpolatePlacement(lits, vals, k);
    PieceSuffix(Interpolate(lits, vals), Offset(lits, vals, k), head, tail);
  }
}
