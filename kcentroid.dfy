/**
 * The k-centroid clusterer base: seeded choice of the initial centroids,
 * nearest-centroid prediction, the defensive-copy centroid accessor, the cost
 * of the whole system, and the planner that carries the defaults.
 *
 * Doubles are modelled as reals. The distance metric, the per-cluster cost and
 * the seeded shuffle are supplied by the caller as functions.
 */
module KCentroid {
  import opened Common

  /** Default iteration budget of a planner. */
  const DefMaxIter: int := 100
  /** Default minimum cost change below which a fit counts as converged. */
  const DefMinChange: real := 0.005
  /** Default metric and default scaling flag, inherited from the root clusterer. */
  const DefDist: Metric := Euclidean
  const DefScale: bool := false

  /** The list 0, 1, ..., m-1: every index below m once, in ascending order, and nothing else. */
  function Range(m: nat): (r: seq<int>)
    ensures |r| == m && forall i :: 0 <= i < m ==> r[i] == i
    ensures forall x :: multiset(r)[x] == if 0 <= x < m then 1 else 0
  {
    if m == 0 then [] else Range(m - 1) + [m - 1]
  }

  /** `p` is a reordering of 0, 1, ..., m-1, as a shuffle of that list returns. */
  ghost predicate IsPermutationOf(p: seq<int>, m: nat) {
    |p| == m && multiset(p) == multiset(Range(m))
  }

  /** A value at two positions of a sequence occurs at least twice in its multiset. */
  lemma RepeatedValueCount(p: seq<int>, i: nat, j: nat)
    requires i < j < |p| && p[i] == p[j]
    ensures multiset(p)[p[i]] >= 2
  {
    assert p == p[..j] + p[j..];
    assert p[i] in p[..j];
    assert p[j] == p[j..][0];
  }

  /**
   * The first k entries of a shuffled 0..m-1 are k pairwise distinct record
   * indices, each in [0, m).
   */
  lemma ShuffledPrefixDistinct(p: seq<int>, m: nat, k: nat)
    requires IsPermutationOf(p, m) && k <= m
    ensures forall i :: 0 <= i < k ==> 0 <= p[i] < m
    ensures forall i, j :: 0 <= i < j < k ==> p[i] != p[j]
  {
    forall i | 0 <= i < k
      ensures 0 <= p[i] < m
    {
      assert p[i] in multiset(p);
    }
    forall i, j | 0 <= i < j < k
      ensures p[i] != p[j]
    {
      if p[i] == p[j] {
        RepeatedValueCount(p, i, j);
      }
    }
  }

  /** The smallest key of a non-empty key set: a TreeMap visits its entries from it upwards. */
  ghost function MinKey(keys: set<int>): (k: int)
    requires keys != {}
    ensures k in keys && forall j :: j in keys ==> k <= j
  {
    assert exists y :: y in keys by {
      if forall y :: y !in keys { assert false; }
    }
    var x :| x in keys;
    assert forall j :: j in keys ==> j == x || j in keys - {x};
    if keys - {x} == {} then x
    else
      var y := MinKey(keys - {x});
      if x < y then x else y
  }

  /**
   * The sum of `cost(members[key], centroids[key])` over the given keys,
   * taken in ascending key order.
   */
  ghost function CostOver(keys: set<int>, members: map<int, seq<int>>, centroids: seq<seq<real>>,
                          cost: (seq<int>, seq<real>) -> real): real
    requires keys <= members.Keys
    requires forall key :: key in keys ==> 0 <= key < |centroids|
    decreases keys
  {
    if keys == {} then 0.0
    else
      var key := MinKey(keys);
      cost(members[key], centroids[key]) + CostOver(keys - {key}, members, centroids, cost)
  }

  /**
   * The system cost does not depend on the order the clusters are visited in:
   * any one cluster's cost can be taken out of the sum first.
   */
  lemma {:induction false} CostOverRemove(keys: set<int>, key: int, members: map<int, seq<int>>,
                                         centroids: seq<seq<real>>, cost: (seq<int>, seq<real>) -> real)
    requires keys <= members.Keys
    requires forall k :: k in keys ==> 0 <= k < |centroids|
    requires key in keys
    ensures CostOver(keys, members, centroids, cost)
         == cost(members[key], centroids[key]) + CostOver(keys - {key}, members, centroids, cost)
    decreases keys
  {
    var least := MinKey(keys);
    if least != key {
      var rest := keys - {least};
      CostOverRemove(rest, key, members, centroids, cost);
      var next := MinKey(keys - {key});
      assert least in keys - {key} && next in keys;
      assert next == least;
      assert (keys - {key}) - {least} == rest - {key};
    }
  }

  /** The cost summed over an empty cluster map is zero. */
  lemma EmptyCostOver(members: map<int, seq<int>>, centroids: seq<seq<real>>, cost: (seq<int>, seq<real>) -> real)
    requires members == map[]
    ensures CostOver(members.Keys, members, centroids, cost) == 0.0
  {
  }

  /** The planner of a k-centroid clusterer: k and the settings it is built with. */
  class BaseKCentroidPlanner {
    var maxIter: int
    var dist: Metric
    var scale: bool
    var minChange: real
    var k: int

    /** A fresh planner for k clusters carries every default. */
    constructor (k: int)
      ensures this.k == k
      ensures maxIter == DefMaxIter && minChange == DefMinChange
      ensures dist == DefDist && scale == DefScale
    {
      this.k := k;
      maxIter := DefMaxIter;
      dist := DefDist;
      scale := DefScale;
      minChange := DefMinChange;
    }

    function GetDist(): Metric
      reads this
    {
      dist
    }

    function GetScale(): bool
      reads this
    {
      scale
    }

    // Each setter may change its own field only (its modifies clause names
    // just that field) and hands back the planner itself, so calls chain.

    method SetDist(dist: Metric) returns (p: BaseKCentroidPlanner)
      modifies this`dist
      ensures p == this && this.dist == dist
    {
      this.dist := dist;
      p := this;
    }

    method SetMaxIter(max: int) returns (p: BaseKCentroidPlanner)
      modifies this`maxIter
      ensures p == this && maxIter == max
    {
      maxIter := max;
      p := this;
    }

    method SetMinChangeStoppingCriteria(min: real) returns (p: BaseKCentroidPlanner)
      modifies this`minChange
      ensures p == this && minChange == min
    {
      minChange := min;
      p := this;
    }

    method SetScale(scale: bool) returns (p: BaseKCentroidPlanner)
      modifies this`scale
      ensures p == this && this.scale == scale
    {
      this.scale := scale;
      p := this;
    }
  }

  /** A dimension mismatch: the length of the record given, and the column count expected. */
  datatype DimensionMismatch = DimensionMismatch(provided: int, expected: int)

  /**
   * The shared state of every k-centroid clusterer. `data` is the training
   * matrix (m rows of `cols` reals); centroid i is the representative of
   * cluster label i.
   */
  class KCentroidClusterer {
    const data: seq<seq<real>>
    const cols: nat
    const k: nat
    const m: nat
    const maxIter: int
    const minChange: real
    var initCentroidIndices: array<int>

    var isTrained: bool
    var converged: bool
    var cost: real
    var labels: Option<seq<int>>
    var iter: int

    var centroids: seq<array<real>>
    /** Cluster label to the indices of its records; null until a fit assigns it. */
    var centToRecord: Option<map<int, seq<int>>>

    ghost predicate Valid()
      reads this
    {
      && m == |data| && IsMatrix(data, cols)
      && k <= m
      && |centroids| == k
    }

    /** The centroids as rows of reals. */
    ghost function CentroidRows(): seq<seq<real>>
      reads this, centroids
    {
      seq(|centroids|, i reads this, centroids requires 0 <= i < |centroids| => centroids[i][..])
    }

    /**
     * Builds the clusterer and picks its initial centroids. `shuffle` stands
     * for shuffling a list with the planner's random state; k <= m is checked
     * by the partitional superclass before this runs.
     */
    constructor (data: seq<seq<real>>, cols: nat, planner: BaseKCentroidPlanner,
                 shuffle: seq<int> -> seq<int>)
      requires IsMatrix(data, cols)
      requires 0 <= planner.k <= |data|
      requires IsPermutationOf(shuffle(Range(|data|)), |data|)
      ensures Valid()
      ensures this.data == data && this.cols == cols && m == |data| && k == planner.k
      ensures maxIter == planner.maxIter && minChange == planner.minChange
      ensures !isTrained && !converged && iter == 0 && cost == 0.0
      ensures labels == None && centToRecord == None
      ensures fresh(initCentroidIndices) && initCentroidIndices[..] == shuffle(Range(m))[..k]
      ensures forall i :: 0 <= i < k ==> 0 <= initCentroidIndices[i] < m
      ensures forall i, j :: 0 <= i < j < k ==> initCentroidIndices[i] != initCentroidIndices[j]
      ensures forall i :: 0 <= i < k ==> fresh(centroids[i]) && centroids[i][..] == data[initCentroidIndices[i]]
    {
      this.data := data;
      this.cols := cols;
      k := planner.k;
      m := |data|;
      maxIter := planner.maxIter;
      minChange := planner.minChange;
      isTrained := false;
      converged := false;
      cost := 0.0;
      labels := None;
      iter := 0;
      centroids := [];
      centToRecord := None;
      initCentroidIndices := new int[0];
      new;
      ghost var before := centroids;
      initCentroidIndices := InitCentroids(shuffle);
      assert |before| == 0;
    }

    /** A fresh copy of a data row, as the matrix's row accessor returns. */
    method GetRow(row: int) returns (a: array<real>)
      requires 0 <= row < |data|
      ensures fresh(a) && a[..] == data[row]
    {
      a := new real[|data[row]|];
      forall j | 0 <= j < a.Length {
        a[j] := data[row][j];
      }
    }

    /**
     * Shuffles the record indices 0..m-1, appends the rows at the first k of
     * them to the centroids, in order, and returns those k indices.
     */
    method InitCentroids(shuffle: seq<int> -> seq<int>) returns (centIndices: array<int>)
      requires m == |data| && k <= m
      requires IsPermutationOf(shuffle(Range(m)), m)
      modifies this`centroids
      ensures fresh(centIndices) && centIndices[..] == shuffle(Range(m))[..k]
      ensures forall i :: 0 <= i < k ==> 0 <= centIndices[i] < m
      ensures forall i, j :: 0 <= i < j < k ==> centIndices[i] != centIndices[j]
      ensures |centroids| == |old(centroids)| + k && centroids[..|old(centroids)|] == old(centroids)
      ensures forall i :: |old(centroids)| <= i < |centroids| ==>
        fresh(centroids[i]) && centroids[i][..] == data[centIndices[i - |old(centroids)|]]
    {
      var recordIndices: seq<int> := [];
      var i := 0;
      while i < m
        invariant 0 <= i <= m && recordIndices == Range(i)
      {
        recordIndices := recordIndices + [i];
        i := i + 1;
      }
      recordIndices := shuffle(recordIndices);
      ShuffledPrefixDistinct(recordIndices, m, k);

      ghost var before := centroids;
      centIndices := new int[k];
      for j := 0 to k
        invariant |centroids| == |before| + j && centroids[..|before|] == before
        invariant forall l :: 0 <= l < j ==> centIndices[l] == recordIndices[l]
        invariant forall l :: |before| <= l < |centroids| ==>
          fresh(centroids[l]) && centroids[l][..] == data[recordIndices[l - |before|]]
      {
        var row := GetRow(recordIndices[j]);
        centroids := centroids + [row];
        centIndices[j] := recordIndices[j];
      }
      assert centIndices[..] == recordIndices[..k];
    }

    /**
     * The label of the centroid nearest to `newRecord` under `distance`, the
     * metric the model was fitted with. The scan starts from the sentinel
     * `maxValue` (the largest double) and label 0 and takes a centroid only if
     * it is strictly closer than the best so far.
     */
    method Predict(newRecord: seq<real>, distance: (seq<real>, seq<real>) -> real, maxValue: real)
      returns (r: Result<int, DimensionMismatch>)
      requires Valid()
      ensures r.Failure? <==> |newRecord| != cols
      ensures r.Failure? ==> r.error == DimensionMismatch(|newRecord|, cols)
      ensures r.Success? && (exists i :: 0 <= i < k && distance(newRecord, centroids[i][..]) < maxValue) ==>
        && 0 <= r.value < k
        && distance(newRecord, centroids[r.value][..]) < maxValue
        && (forall j :: 0 <= j < k ==> distance(newRecord, centroids[r.value][..]) <= distance(newRecord, centroids[j][..]))
        && (forall j :: 0 <= j < r.value ==> distance(newRecord, centroids[r.value][..]) < distance(newRecord, centroids[j][..]))
      ensures r.Success? && (forall i :: 0 <= i < k ==> distance(newRecord, centroids[i][..]) >= maxValue) ==>
        r.value == 0
    {
      var n := |newRecord|;
      if n != cols {
        return Failure(DimensionMismatch(n, cols));
      }
      var nearestLabel := 0;
      var shortestDist := maxValue;
      for i := 0 to k
        invariant 0 <= nearestLabel < k || nearestLabel == 0
        invariant shortestDist <= maxValue
        invariant forall j :: 0 <= j < i ==> shortestDist <= distance(newRecord, centroids[j][..])
        invariant shortestDist < maxValue ==>
          && nearestLabel < i
          && shortestDist == distance(newRecord, centroids[nearestLabel][..])
          && (forall j :: 0 <= j < nearestLabel ==> shortestDist < distance(newRecord, centroids[j][..]))
        invariant shortestDist == maxValue ==> nearestLabel == 0
      {
        var cent := centroids[i];
        var dist := distance(newRecord, cent[..]);
        if dist < shortestDist {
          shortestDist := dist;
          nearestLabel := i;
        }
      }
      r := Success(nearestLabel);
    }

    /**
     * A new list of fresh arrays, one per centroid and equal to it element for
     * element: writing to the result can never reach the centroids.
     */
    method GetCentroids() returns (cent: seq<array<real>>)
      ensures |cent| == |centroids|
      ensures forall i :: 0 <= i < |cent| ==> fresh(cent[i]) && cent[i][..] == centroids[i][..]
      ensures forall i, j :: 0 <= i < j < |cent| ==> cent[i] != cent[j]
    {
      cent := [];
      for i := 0 to |centroids|
        invariant |cent| == i
        invariant forall l :: 0 <= l < i ==> fresh(cent[l]) && cent[l][..] == centroids[l][..]
        invariant forall l, l' :: 0 <= l < l' < i ==> cent[l] != cent[l']
      {
        var d := centroids[i];
        var copy := new real[d.Length];
        forall j | 0 <= j < d.Length {
          copy[j] := d[j];
        }
        cent := cent + [copy];
      }
    }

    /**
     * The cost of the whole system: `getCost` of every cluster's members and
     * centroid, summed over the cluster map in ascending label order. It
     * changes no field; in particular `cost` keeps its value.
     */
    method GetCostOfSystem(getCost: (seq<int>, seq<real>) -> real) returns (total: real)
      requires Valid() && centToRecord.Some?
      requires forall key :: key in centToRecord.value ==> 0 <= key < k
      ensures total == CostOver(centToRecord.value.Keys, centToRecord.value, CentroidRows(), getCost)
    {
      var members := centToRecord.value;
      ghost var rows := CentroidRows();
      total := 0.0;
      var rest := members.Keys;
      while rest != {}
        invariant rest <= members.Keys
        invariant total + CostOver(rest, members, rows, getCost) == CostOver(members.Keys, members, rows, getCost)
        decreases rest
      {
        ghost var least := MinKey(rest);
        var key :| key in rest && forall j :: j in rest ==> key <= j;
        assert key == least;
        var oid := centroids[key];
        total := total + getCost(members[key], oid[..]);
        rest := rest - {key};
      }
    }

    function DidConverge(): bool
      reads this
    {
      converged
    }

    function GetMinChange(): real
      reads this
    {
      minChange
    }

    function GetMaxIter(): int
      reads this
    {
      maxIter
    }

    function GetPredictedLabels(): Option<seq<int>>
      reads this
    {
      labels
    }

    function IsTrained(): bool
      reads this
    {
      isTrained
    }

    function ItersElapsed(): int
      reads this
    {
      iter
    }

    function TotalCost(): real
      reads this
    {
      cost
    }
  }
}
