/** `YieldPoint` (avalon/compiler/compiler.py): the per-function counter
    that hands out the dispatcher's `case` labels. */
module YieldPoints {

  datatype YieldPoint = YieldPoint(count: nat)

  /** A fresh counter: no label handed out yet. */
  function Fresh(): (y: YieldPoint)
    ensures y.count == 0
  {
    YieldPoint(0)
  }

  /** `create()`: the next label and the advanced counter. */
  function Create(y: YieldPoint): (r: (nat, YieldPoint))
    ensures r.0 == y.count + 1 && r.1.count == r.0
    ensures r.0 >= 1
  {
    var n := y.count + 1;
    (n, YieldPoint(n))
  }

  /** The labels handed out by `k` successive calls of `create()`. */
  function CreateMany(y: YieldPoint, k: nat): (r: (seq<nat>, YieldPoint))
    ensures |r.0| == k && r.1.count == y.count + k
    decreases k
  {
    if k == 0 then ([], y)
    else
      var (n, y1) := Create(y);
      var (rest, y2) := CreateMany(y1, k - 1);
      ([n] + rest, y2)
  }

  /** Successive labels are `count+1, count+2, ...`: strictly increasing,
      never 0, so they never collide with the entry state. */
  lemma {:induction false} CreateManyLabels(y: YieldPoint, k: nat)
    ensures forall i :: 0 <= i < k ==> CreateMany(y, k).0[i] == y.count + 1 + i
    ensures forall i, j :: 0 <= i < j < k ==> CreateMany(y, k).0[i] < CreateMany(y, k).0[j]
    ensures forall i :: 0 <= i < k ==> CreateMany(y, k).0[i] != 0
    decreases k
  {
    if k > 0 {
      var y1 := Create(y).1;
      CreateManyLabels(y1, k - 1);
      var rest := CreateMany(y1, k - 1).0;
      var ls := CreateMany(y, k).0;
      assert ls == [y.count + 1] + rest;
      forall i | 0 <= i < k ensures ls[i] == y.count + 1 + i {
        if i > 0 {
          assert ls[i] == rest[i - 1];
        }
      }
    }
  }
}
