/** Three-component vectors over the reals: the Vector3 values that positions,
    centres of mass, forces and gradient rows are made of. Reals stand in for
    doubles, so sums here are exact and associative. */
module Vector3 {

  datatype Vec3 = Vec3(x: real, y: real, z: real)

  const Zero: Vec3 := Vec3(0.0, 0.0, 0.0)

  function Plus(a: Vec3, b: Vec3): Vec3 {
    Vec3(a.x + b.x, a.y + b.y, a.z + b.z)
  }

  function Minus(a: Vec3, b: Vec3): Vec3 {
    Vec3(a.x - b.x, a.y - b.y, a.z - b.z)
  }

  function Scale(k: real, v: Vec3): Vec3 {
    Vec3(k * v.x, k * v.y, k * v.z)
  }

  /** Left fold of `Plus` from `Zero`, in sequence order: the `total += …` loop. */
  function Sum(fs: seq<Vec3>): Vec3 {
    if |fs| == 0 then Zero else Plus(Sum(fs[..|fs| - 1]), fs[|fs| - 1])
  }

  /** Adding up nothing but zeros gives zero. */
  lemma {:induction false} SumOfZeros(fs: seq<Vec3>)
    requires forall i :: 0 <= i < |fs| ==> fs[i] == Zero
    ensures Sum(fs) == Zero
    decreases |fs|
  {
    if |fs| > 0 {
      SumOfZeros(fs[..|fs| - 1]);
    }
  }

  /** Summing a concatenation sums the two halves. */
  lemma {:induction false} SumAppend(a: seq<Vec3>, b: seq<Vec3>)
    ensures Sum(a + b) == Plus(Sum(a), Sum(b))
    decreases |b|
  {
    if |b| == 0 {
      assert a + b == a;
    } else {
      var b' := b[..|b| - 1];
      assert (a + b)[..|a + b| - 1] == a + b';
      SumAppend(a, b');
    }
  }

  /** Taking one element out of the middle of a sum and adding it at the end
      gives the same sum. */
  lemma {:induction false} SumExtract(fs: seq<Vec3>, j: nat)
    requires j < |fs|
    ensures Sum(fs) == Plus(Sum(fs[..j] + fs[j + 1..]), fs[j])
  {
    var before, after := fs[..j], fs[j + 1..];
    assert fs == (before + [fs[j]]) + after;
    SumAppend(before + [fs[j]], after);
    SumSnoc(before, fs[j]);
    SumAppend(before, after);
    PlusSwap(Sum(before), fs[j], Sum(after));
  }

  /** Summing with one more element at the end adds that element. */
  lemma {:induction false} SumSnoc(fs: seq<Vec3>, f: Vec3)
    ensures Sum(fs + [f]) == Plus(Sum(fs), f)
  {
    assert (fs + [f])[..|fs|] == fs;
  }

  lemma PlusSwap(a: Vec3, b: Vec3, c: Vec3)
    ensures Plus(Plus(a, b), c) == Plus(Plus(a, c), b)
  {
  }
}
