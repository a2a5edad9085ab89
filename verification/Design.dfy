/** The balanced screening design of an experiment plan: a best-of-many search over shuffled balanced columns. */
module Design {
  import opened Primitives
  import opened Arithmetic

  datatype Level = Number(n: int) | Percent(p: real) | Quorum(authorities: int, threshold: int)

  type Row = seq<Level>

  datatype Plan = Plan(
    repetitions: int, devices: seq<int>, events: seq<int>, blockSizes: seq<int>,
    quorums: seq<(int, int)>, losses: seq<real>, outages: seq<int>,
    lossMode: string, designType: string, samples: Option<int>, runtimeHours: Option<real>)

  datatype PlanError =
    | BadRepetitions | EmptyAxis | BadDevices | BadEvents | BadBlockSizes | BadLosses | BadOutages
    | NoQuorums | BadQuorum | BadLossMode | BadDesignType | BadRuntime
    | NoSamples | TooManySamples | NotDivisible

  function Numbers(values: seq<int>): (r: seq<Level>)
    ensures |r| == |values|
  {
    seq(|values|, i requires 0 <= i < |values| => Number(values[i]))
  }

  /** The six factors of the design, each with its levels. */
  function Axes(plan: Plan): (r: seq<seq<Level>>)
    ensures |r| == 6
  {
    [Numbers(plan.devices), Numbers(plan.events), Numbers(plan.blockSizes),
     seq(|plan.quorums|, i requires 0 <= i < |plan.quorums| => Quorum(plan.quorums[i].0, plan.quorums[i].1)),
     seq(|plan.losses|, i requires 0 <= i < |plan.losses| => Percent(plan.losses[i])),
     Numbers(plan.outages)]
  }

  function FullCount(axes: seq<seq<Level>>): nat {
    if axes == [] then 1 else FullCount(axes[..|axes| - 1]) * |axes[|axes| - 1]|
  }

  function Validate(plan: Plan): Option<PlanError> {
    if plan.repetitions < 1 then Some(BadRepetitions)
    else if plan.devices == [] || plan.events == [] || plan.blockSizes == [] || plan.losses == [] || plan.outages == [] then Some(EmptyAxis)
    else if exists i | 0 <= i < |plan.devices| :: plan.devices[i] < 1 then Some(BadDevices)
    else if exists i | 0 <= i < |plan.events| :: plan.events[i] < 1 then Some(BadEvents)
    else if exists i | 0 <= i < |plan.blockSizes| :: plan.blockSizes[i] < 1 || plan.blockSizes[i] > 10000 then Some(BadBlockSizes)
    else if exists i | 0 <= i < |plan.losses| :: plan.losses[i] < 0.0 || plan.losses[i] > 100.0 then Some(BadLosses)
    else if exists i | 0 <= i < |plan.outages| :: plan.outages[i] < 0 then Some(BadOutages)
    else if plan.quorums == [] then Some(NoQuorums)
    else if exists i | 0 <= i < |plan.quorums| :: !(1 <= plan.quorums[i].1 <= plan.quorums[i].0) then Some(BadQuorum)
    else if plan.lossMode !in ["netem", "application", "none"] then Some(BadLossMode)
    else if plan.designType !in ["full_factorial", "balanced_screening"] then Some(BadDesignType)
    else if plan.runtimeHours.Some? && plan.runtimeHours.value <= 0.0 then Some(BadRuntime)
    else if plan.designType == "balanced_screening" then ValidateSamples(plan.samples, Axes(plan))
    else None
  }

  function ValidateSamples(samples: Option<int>, axes: seq<seq<Level>>): Option<PlanError> {
    if samples.None? || samples.value < 1 then Some(NoSamples)
    else if samples.value > FullCount(axes) then Some(TooManySamples)
    else if exists k | 0 <= k < |axes| :: axes[k] == [] || samples.value % |axes[k]| != 0 then Some(NotDivisible)
    else None
  }

  /** Every factor has levels, each in the range that its kind allows. */
  predicate GoodLevels(plan: Plan) {
    && plan.devices != [] && (forall i | 0 <= i < |plan.devices| :: plan.devices[i] >= 1)
    && plan.events != [] && (forall i | 0 <= i < |plan.events| :: plan.events[i] >= 1)
    && plan.blockSizes != [] && (forall i | 0 <= i < |plan.blockSizes| :: 1 <= plan.blockSizes[i] <= 10000)
    && plan.quorums != [] && (forall i | 0 <= i < |plan.quorums| :: 1 <= plan.quorums[i].1 <= plan.quorums[i].0)
    && plan.losses != [] && (forall i | 0 <= i < |plan.losses| :: 0.0 <= plan.losses[i] <= 100.0)
    && plan.outages != [] && (forall i | 0 <= i < |plan.outages| :: plan.outages[i] >= 0)
  }

  predicate GoodNames(plan: Plan) {
    && plan.lossMode in {"netem", "application", "none"}
    && plan.designType in {"full_factorial", "balanced_screening"}
  }

  function Combinations(plan: Plan): nat {
    |plan.devices| * |plan.events| * |plan.blockSizes| * |plan.quorums| * |plan.losses| * |plan.outages|
  }

  /** The sample count of a screening: no more than the combinations, and divisible by the number of levels of every factor. */
  predicate GoodScreening(plan: Plan)
    requires GoodLevels(plan)
  {
    && plan.samples.Some? && 1 <= plan.samples.value <= Combinations(plan)
    && plan.samples.value % |plan.devices| == 0 && plan.samples.value % |plan.events| == 0
    && plan.samples.value % |plan.blockSizes| == 0 && plan.samples.value % |plan.quorums| == 0
    && plan.samples.value % |plan.losses| == 0 && plan.samples.value % |plan.outages| == 0
  }

  lemma CombinationsAre(plan: Plan)
    ensures FullCount(Axes(plan)) == Combinations(plan)
  {
    var axes := Axes(plan);
    assert FullCount(axes[..1]) == |plan.devices|;
    assert axes[..2][..1] == axes[..1] && FullCount(axes[..2]) == FullCount(axes[..1]) * |plan.events|;
    assert axes[..3][..2] == axes[..2] && FullCount(axes[..3]) == FullCount(axes[..2]) * |plan.blockSizes|;
    assert axes[..4][..3] == axes[..3] && FullCount(axes[..4]) == FullCount(axes[..3]) * |plan.quorums|;
    assert axes[..5][..4] == axes[..4] && FullCount(axes[..5]) == FullCount(axes[..4]) * |plan.losses|;
    assert axes[..5] == axes[..|axes| - 1];
  }

  lemma ScreeningIff(plan: Plan)
    requires GoodLevels(plan)
    ensures ValidateSamples(plan.samples, Axes(plan)).None? <==> GoodScreening(plan)
  {
    CombinationsAre(plan);
    var axes := Axes(plan);
    assert |axes[0]| == |plan.devices| && |axes[1]| == |plan.events| && |axes[2]| == |plan.blockSizes|;
    assert |axes[3]| == |plan.quorums| && |axes[4]| == |plan.losses| && |axes[5]| == |plan.outages|;
  }

  /** A plan is accepted exactly when its levels, names and run time are in range and a screening fits the full design. */
  lemma ValidPlanIff(plan: Plan)
    ensures Validate(plan).None? <==>
              && plan.repetitions >= 1 && GoodLevels(plan) && GoodNames(plan)
              && (plan.runtimeHours.Some? ==> plan.runtimeHours.value > 0.0)
              && (plan.designType == "balanced_screening" ==> GoodScreening(plan))
  {
    hide ValidateSamples, GoodScreening;
    if GoodLevels(plan) {
      ScreeningIff(plan);
    }
  }

  // ---------------------------------------------------------------------------
  // Columns and rows
  // ---------------------------------------------------------------------------

  /** What the library's generator does to a column in an attempt; any rearrangement may come out. */
  type Shuffle = (nat, nat, seq<Level>) -> seq<Level>

  ghost predicate Rearranges(shuffle: Shuffle) {
    forall attempt, axis, column :: multiset(shuffle(attempt, axis, column)) == multiset(column)
  }

  function Repeated(values: seq<Level>, times: nat): (r: seq<Level>)
    ensures |r| == |values| * times
  {
    if times == 0 then [] else
      Distribute(times, 1, |values|);
      Repeated(values, times - 1) + values
  }

  lemma {:induction false} RepeatedCounts(values: seq<Level>, times: nat, v: Level)
    ensures multiset(Repeated(values, times))[v] == multiset(values)[v] * times
  {
    if times > 0 {
      var before := Repeated(values, times - 1);
      RepeatedCounts(values, times - 1, v);
      assert multiset(before + values)[v] == multiset(before)[v] + multiset(values)[v];
      NextMultiple(multiset(values)[v], times);
    }
  }

  function Columns(axes: seq<seq<Level>>, n: nat, shuffle: Shuffle, attempt: nat): (r: seq<seq<Level>>)
    requires forall k :: 0 <= k < |axes| ==> axes[k] != []
    ensures |r| == |axes|
    ensures forall k :: 0 <= k < |axes| ==> r[k] == shuffle(attempt, k, Repeated(axes[k], n / |axes[k]|))
  {
    seq(|axes|, k requires 0 <= k < |axes| => shuffle(attempt, k, Repeated(axes[k], n / |axes[k]|)))
  }

  function RowAt(columns: seq<seq<Level>>, i: nat): (r: Row)
    requires forall k :: 0 <= k < |columns| ==> i < |columns[k]|
    ensures |r| == |columns| && forall k :: 0 <= k < |columns| ==> r[k] == columns[k][i]
  {
    seq(|columns|, k requires 0 <= k < |columns| => columns[k][i])
  }

  function Rows(columns: seq<seq<Level>>, n: nat): (r: seq<Row>)
    requires forall k :: 0 <= k < |columns| ==> |columns[k]| == n
    ensures |r| == n && forall i :: 0 <= i < n ==> r[i] == RowAt(columns, i)
  {
    seq(n, i requires 0 <= i < n => RowAt(columns, i))
  }

  function Cell(row: Row, k: nat): Level { if k < |row| then row[k] else Number(0) }

  function Mapped<T>(rows: seq<Row>, f: Row -> T): (r: seq<T>)
    ensures |r| == |rows| && forall i :: 0 <= i < |rows| ==> r[i] == f(rows[i])
  {
    seq(|rows|, i requires 0 <= i < |rows| => f(rows[i]))
  }

  /** The cells of one factor, row by row. */
  function Column(rows: seq<Row>, k: nat): (r: seq<Level>)
    ensures |r| == |rows| && forall i :: 0 <= i < |rows| ==> r[i] == Cell(rows[i], k)
  {
    Mapped(rows, row => Cell(row, k))
  }

  /** The cells of two factors, row by row. */
  function PairColumn(rows: seq<Row>, left: nat, right: nat): (r: seq<(Level, Level)>)
    ensures |r| == |rows| && forall i :: 0 <= i < |rows| ==> r[i] == (Cell(rows[i], left), Cell(rows[i], right))
  {
    Mapped(rows, row => (Cell(row, left), Cell(row, right)))
  }

  ghost predicate Distinct<T>(xs: seq<T>) {
    forall i, j :: 0 <= i < j < |xs| ==> xs[i] != xs[j]
  }

  /** Every level of every factor occurs exactly n / levels times as often as the factor lists it. */
  ghost predicate Balanced(axes: seq<seq<Level>>, rows: seq<Row>, n: nat)
    requires forall k :: 0 <= k < |axes| ==> axes[k] != []
  {
    forall k, v {:trigger multiset(Column(rows, k))[v]} :: 0 <= k < |axes| ==>
      multiset(Column(rows, k))[v] == multiset(axes[k])[v] * (n / |axes[k]|)
  }

  /** A plan that passed validation: every factor has levels, and their number divides the sample count. */
  ghost predicate Fits(axes: seq<seq<Level>>, n: nat) {
    n >= 1 && forall k :: 0 <= k < |axes| ==> axes[k] != [] && n % |axes[k]| == 0
  }

  lemma Divides(n: int, d: int)
    requires d > 0 && n % d == 0
    ensures d * (n / d) == n
  {
  }

  lemma ColumnLength(axes: seq<seq<Level>>, n: nat, shuffle: Shuffle, attempt: nat, k: nat)
    requires Fits(axes, n) && Rearranges(shuffle) && k < |axes|
    ensures |Columns(axes, n, shuffle, attempt)[k]| == n
  {
    var column := Repeated(axes[k], n / |axes[k]|);
    Divides(n, |axes[k]|);
    assert |multiset(shuffle(attempt, k, column))| == |multiset(column)|;
  }

  ghost function AttemptRows(axes: seq<seq<Level>>, n: nat, shuffle: Shuffle, attempt: nat): (r: seq<Row>)
    requires Fits(axes, n) && Rearranges(shuffle)
    ensures |r| == n
  {
    assert forall k :: 0 <= k < |axes| ==> |Columns(axes, n, shuffle, attempt)[k]| == n by {
      forall k | 0 <= k < |axes| ensures |Columns(axes, n, shuffle, attempt)[k]| == n {
        ColumnLength(axes, n, shuffle, attempt, k);
      }
    }
    Rows(Columns(axes, n, shuffle, attempt), n)
  }

  lemma AttemptIsBalanced(axes: seq<seq<Level>>, n: nat, shuffle: Shuffle, attempt: nat)
    requires Fits(axes, n) && Rearranges(shuffle)
    ensures Balanced(axes, AttemptRows(axes, n, shuffle, attempt), n)
    ensures forall row :: row in AttemptRows(axes, n, shuffle, attempt) ==> |row| == |axes|
  {
    var rows, columns := AttemptRows(axes, n, shuffle, attempt), Columns(axes, n, shuffle, attempt);
    forall k, v | 0 <= k < |axes| ensures multiset(Column(rows, k))[v] == multiset(axes[k])[v] * (n / |axes[k]|) {
      ColumnLength(axes, n, shuffle, attempt, k);
      assert Column(rows, k) == columns[k];
      RepeatedCounts(axes[k], n / |axes[k]|, v);
    }
  }

  // ---------------------------------------------------------------------------
  // The imbalance score
  // ---------------------------------------------------------------------------

  /** The keys of the count table, in the order they are first written. */
  function FirstOccurrences(xs: seq<(Level, Level)>): (r: seq<(Level, Level)>)
    ensures forall x :: x in r <==> x in xs
    ensures forall i, j :: 0 <= i < j < |r| ==> r[i] != r[j]
  {
    if xs == [] then []
    else
      var last := xs[|xs| - 1];
      var before := FirstOccurrences(xs[..|xs| - 1]);
      assert forall x :: x in xs <==> x in xs[..|xs| - 1] || x == last;
      if last in before then before else before + [last]
  }

  function AllPairs(a: seq<Level>, b: seq<Level>): (r: seq<(Level, Level)>)
    ensures forall x, y :: (x, y) in r <==> x in a && y in b
  {
    if a == [] then []
    else
      var last := a[|a| - 1];
      var before := AllPairs(a[..|a| - 1], b);
      var row := seq(|b|, j requires 0 <= j < |b| => (last, b[j]));
      PairsAppend(a, b, before, row);
      before + row
  }

  lemma PairsAppend(a: seq<Level>, b: seq<Level>, before: seq<(Level, Level)>, row: seq<(Level, Level)>)
    requires a != [] && |row| == |b| && forall j :: 0 <= j < |b| ==> row[j] == (a[|a| - 1], b[j])
    requires forall x, y :: (x, y) in before <==> x in a[..|a| - 1] && y in b
    ensures forall x, y :: (x, y) in before + row <==> x in a && y in b
  {
    forall x, y ensures (x, y) in before + row <==> x in a && y in b {
      if x == a[|a| - 1] && y in b {
        var j :| 0 <= j < |b| && b[j] == y;
        assert row[j] == (x, y);
      }
      assert x in a <==> x in a[..|a| - 1] || x == a[|a| - 1];
    }
  }

  function Pairs(a: seq<Level>, b: seq<Level>): seq<(Level, Level)> { FirstOccurrences(AllPairs(a, b)) }

  /** The squared deviations of the counts of these pairs from the ideal. */
  function Deviation(pairs: seq<(Level, Level)>, counts: multiset<(Level, Level)>, ideal: real): (r: real)
    ensures r >= 0.0
  {
    if pairs == [] then 0.0
    else
      var d := counts[pairs[|pairs| - 1]] as real - ideal;
      Square(d);
      Deviation(pairs[..|pairs| - 1], counts, ideal) + d * d
  }

  lemma Square(d: real)
    ensures d * d >= 0.0
  {
  }

  function Ideal(axes: seq<seq<Level>>, n: nat, left: nat, right: nat): real
    requires left < |axes| && right < |axes| && axes[left] != [] && axes[right] != []
  {
    Positive(|axes[left]|, |axes[right]|);
    n as real / (|axes[left]| * |axes[right]|) as real
  }

  /** The ideal shares the rows out equally: a count meets it exactly when it makes up the rows, taken once for each pair of levels. */
  lemma IdealIff(axes: seq<seq<Level>>, n: nat, left: nat, right: nat, count: nat)
    requires left < |axes| && right < |axes| && axes[left] != [] && axes[right] != []
    ensures count as real == Ideal(axes, n, left, right) <==> count * (|axes[left]| * |axes[right]|) == n
  {
    var k := |axes[left]| * |axes[right]|;
    Positive(|axes[left]|, |axes[right]|);
    QuotientIff(count as real, n as real, k as real);
    assert (count * k) as real == count as real * k as real;
  }

  lemma QuotientIff(x: real, n: real, k: real)
    requires k > 0.0
    ensures x == n / k <==> x * k == n
  {
  }

  lemma Positive(a: nat, b: nat)
    requires a > 0 && b > 0
    ensures a * b > 0
  {
    AtLeastOnce(a, b);
  }

  function PairScore(axes: seq<seq<Level>>, rows: seq<Row>, left: nat, right: nat): (r: real)
    requires left < |axes| && right < |axes| && axes[left] != [] && axes[right] != []
    ensures r >= 0.0
  {
    Deviation(Pairs(axes[left], axes[right]), multiset(PairColumn(rows, left, right)), Ideal(axes, |rows|, left, right))
  }

  /** The pair scores of a design, as a table over the factors. */
  function PairScores(axes: seq<seq<Level>>, rows: seq<Row>): (nat, nat) -> real
    requires forall k :: 0 <= k < |axes| ==> axes[k] != []
  {
    (left: nat, right: nat) => if left < |axes| && right < |axes| then PairScore(axes, rows, left, right) else 0.0
  }

  /** The sum over all pairs of n factors before (left, right), in the order of two nested loops. */
  function PairSum(n: nat, scores: (nat, nat) -> real, left: nat, right: nat): real
    decreases left, right
  {
    if right > left + 1 then PairSum(n, scores, left, right - 1) + scores(left, right - 1)
    else if left > 0 then PairSum(n, scores, left - 1, n)
    else 0.0
  }

  lemma {:induction false} SumNonNegative(n: nat, scores: (nat, nat) -> real, left: nat, right: nat)
    requires forall l, r :: scores(l, r) >= 0.0
    ensures PairSum(n, scores, left, right) >= 0.0
    decreases left, right
  {
    if right > left + 1 {
      SumNonNegative(n, scores, left, right - 1);
    } else if left > 0 {
      SumNonNegative(n, scores, left - 1, n);
    }
  }

  lemma {:induction false} EqualSums(n: nat, f: (nat, nat) -> real, g: (nat, nat) -> real, left: nat, right: nat)
    requires forall l, r :: f(l, r) == g(l, r)
    ensures PairSum(n, f, left, right) == PairSum(n, g, left, right)
    decreases left, right
  {
    if right > left + 1 {
      EqualSums(n, f, g, left, right - 1);
    } else if left > 0 {
      EqualSums(n, f, g, left - 1, n);
    }
  }

  function Score(axes: seq<seq<Level>>, rows: seq<Row>): (r: real)
    requires forall k :: 0 <= k < |axes| ==> axes[k] != []
    ensures r >= 0.0
  {
    SumNonNegative(|axes|, PairScores(axes, rows), |axes|, 0);
    PairSum(|axes|, PairScores(axes, rows), |axes|, 0)
  }

  lemma {:induction false} NoDeviationIff(pairs: seq<(Level, Level)>, counts: multiset<(Level, Level)>, ideal: real)
    ensures Deviation(pairs, counts, ideal) == 0.0 <==> forall x :: x in pairs ==> counts[x] as real == ideal
  {
    if pairs != [] {
      var n := |pairs| - 1;
      var d := counts[pairs[n]] as real - ideal;
      NoDeviationIff(pairs[..n], counts, ideal);
      ZeroSum(Deviation(pairs[..n], counts, ideal), d);
      assert forall x :: x in pairs <==> x in pairs[..n] || x == pairs[n];
    }
  }

  lemma ZeroProduct(x: real, y: real)
    requires x * y == 0.0 && x != 0.0
    ensures y == 0.0
  {
  }

  lemma ZeroTerms(x: real, y: real)
    requires x >= 0.0 && y >= 0.0 && x + y == 0.0
    ensures x == 0.0 && y == 0.0
  {
  }

  lemma ZeroParts(x: real, d: real)
    requires x >= 0.0 && x + d * d == 0.0
    ensures x == 0.0 && d == 0.0
  {
    Square(d);
    ZeroTerms(x, d * d);
    if d != 0.0 {
      ZeroProduct(d, d);
    }
  }

  lemma ZeroSum(x: real, d: real)
    requires x >= 0.0
    ensures x + d * d == 0.0 <==> x == 0.0 && d == 0.0
  {
    if x + d * d == 0.0 {
      ZeroParts(x, d);
    }
  }

  /** The pair (l, r) of n factors is among those summed before (left, right). */
  predicate Summed(n: nat, left: nat, right: nat, l: nat, r: nat) { l < r < n && (l < left || (l == left && r < right)) }

  lemma {:induction false} NoSumIff(n: nat, scores: (nat, nat) -> real, left: nat, right: nat)
    requires right <= n && forall l, r :: scores(l, r) >= 0.0
    ensures PairSum(n, scores, left, right) == 0.0
       <==> forall l: nat, r: nat {:trigger scores(l, r)} :: Summed(n, left, right, l, r) ==> scores(l, r) == 0.0
    decreases left, right
  {
    if right > left + 1 {
      NoSumIff(n, scores, left, right - 1);
      SumNonNegative(n, scores, left, right - 1);
      assert scores(left, right - 1) >= 0.0;
    } else if left > 0 {
      NoSumIff(n, scores, left - 1, n);
    }
  }

  /** All pairs of levels of the two factors occur together equally often. */
  ghost predicate EvenlyPaired(axes: seq<seq<Level>>, rows: seq<Row>, left: nat, right: nat)
    requires left < |axes| && right < |axes| && axes[left] != [] && axes[right] != []
  {
    forall a, b :: a in axes[left] && b in axes[right] ==>
      multiset(PairColumn(rows, left, right))[(a, b)] * (|axes[left]| * |axes[right]|) == |rows|
  }

  lemma NoPairScoreIff(axes: seq<seq<Level>>, rows: seq<Row>, left: nat, right: nat)
    requires left < |axes| && right < |axes| && axes[left] != [] && axes[right] != []
    ensures PairScore(axes, rows, left, right) == 0.0 <==> EvenlyPaired(axes, rows, left, right)
  {
    var pairs := Pairs(axes[left], axes[right]);
    NoDeviationIff(pairs, multiset(PairColumn(rows, left, right)), Ideal(axes, |rows|, left, right));
    forall a, b ensures (a, b) in pairs <==> a in axes[left] && b in axes[right] {}
    forall a, b ensures multiset(PairColumn(rows, left, right))[(a, b)] as real == Ideal(axes, |rows|, left, right)
                    <==> multiset(PairColumn(rows, left, right))[(a, b)] * (|axes[left]| * |axes[right]|) == |rows| {
      IdealIff(axes, |rows|, left, right, multiset(PairColumn(rows, left, right))[(a, b)]);
    }
  }

  /** A score of zero, at which the search stops early, means that every two factors are evenly paired. */
  lemma PerfectScoreIff(axes: seq<seq<Level>>, rows: seq<Row>)
    requires forall k :: 0 <= k < |axes| ==> axes[k] != []
    ensures Score(axes, rows) == 0.0 <==> forall left: nat, right: nat :: left < right < |axes| ==> EvenlyPaired(axes, rows, left, right)
  {
    var scores := PairScores(axes, rows);
    NoSumIff(|axes|, scores, |axes|, 0);
    forall l: nat, r: nat | l < r < |axes| ensures scores(l, r) == 0.0 <==> EvenlyPaired(axes, rows, l, r) {
      NoPairScoreIff(axes, rows, l, r);
    }
  }

  /** Rearranging a list rearranges whatever is read off its elements. */
  lemma {:induction false} RearrangedMap<T>(a: seq<Row>, b: seq<Row>, f: Row -> T)
    requires multiset(a) == multiset(b)
    ensures multiset(Mapped(a, f)) == multiset(Mapped(b, f))
    decreases |a|
  {
    if a == [] {
      assert |multiset(b)| == 0;
      assert b == [];
    } else {
      var n, row := |a| - 1, a[|a| - 1];
      assert row in multiset(b);
      var i :| 0 <= i < |b| && b[i] == row;
      RemoveOne(a, n);
      RemoveOne(b, i);
      var fewer, others := a[..n] + a[n + 1..], b[..i] + b[i + 1..];
      assert multiset(fewer) == multiset(a) - multiset{row} && multiset(others) == multiset(b) - multiset{row};
      RearrangedMap(fewer, others, f);
      RemoveMapped(a, n, f);
      RemoveMapped(b, i, f);
    }
  }

  lemma RemoveMapped<T>(xs: seq<Row>, i: nat, f: Row -> T)
    requires i < |xs|
    ensures multiset(Mapped(xs, f)) == multiset(Mapped(xs[..i] + xs[i + 1..], f)) + multiset{f(xs[i])}
  {
    RemoveOne(Mapped(xs, f), i);
    assert Mapped(xs, f)[..i] + Mapped(xs, f)[i + 1..] == Mapped(xs[..i] + xs[i + 1..], f);
  }

  lemma RearrangedColumns(a: seq<Row>, b: seq<Row>, left: nat, right: nat)
    requires multiset(a) == multiset(b)
    ensures |a| == |b|
    ensures multiset(Column(a, left)) == multiset(Column(b, left))
    ensures multiset(PairColumn(a, left, right)) == multiset(PairColumn(b, left, right))
  {
    assert |multiset(a)| == |multiset(b)|;
    RearrangedMap(a, b, row => Cell(row, left));
    RearrangedMap(a, b, row => (Cell(row, left), Cell(row, right)));
    assert Column(a, left) == Mapped(a, row => Cell(row, left));
    assert Column(b, left) == Mapped(b, row => Cell(row, left));
    assert PairColumn(a, left, right) == Mapped(a, row => (Cell(row, left), Cell(row, right)));
    assert PairColumn(b, left, right) == Mapped(b, row => (Cell(row, left), Cell(row, right)));
  }

  lemma RemoveOne<T>(xs: seq<T>, i: nat)
    requires i < |xs|
    ensures multiset(xs) == multiset(xs[..i] + xs[i + 1..]) + multiset{xs[i]}
  {
    assert xs == xs[..i] + [xs[i]] + xs[i + 1..];
  }

  lemma RearrangedPairScore(axes: seq<seq<Level>>, a: seq<Row>, b: seq<Row>, left: nat, right: nat)
    requires multiset(a) == multiset(b)
    requires left < |axes| && right < |axes| && axes[left] != [] && axes[right] != []
    ensures PairScore(axes, a, left, right) == PairScore(axes, b, left, right)
  {
    RearrangedColumns(a, b, left, right);
  }

  lemma RearrangedScore(axes: seq<seq<Level>>, a: seq<Row>, b: seq<Row>)
    requires multiset(a) == multiset(b) && forall k :: 0 <= k < |axes| ==> axes[k] != []
    ensures Score(axes, a) == Score(axes, b)
  {
    var f, g := PairScores(axes, a), PairScores(axes, b);
    forall l: nat, r: nat ensures f(l, r) == g(l, r) {
      if l < |axes| && r < |axes| {
        RearrangedPairScore(axes, a, b, l, r);
      }
    }
    EqualSums(|axes|, f, g, |axes|, 0);
  }

  /** The final ordering of the rows changes neither their balance nor their score nor that they are distinct. */
  lemma OrderIsIrrelevant(axes: seq<seq<Level>>, a: seq<Row>, b: seq<Row>, n: nat)
    requires multiset(a) == multiset(b) && forall k :: 0 <= k < |axes| ==> axes[k] != []
    ensures |a| == |b| && Score(axes, a) == Score(axes, b)
    ensures Balanced(axes, a, n) ==> Balanced(axes, b, n)
    ensures Distinct(a) ==> Distinct(b)
  {
    RearrangedColumns(a, b, 0, 0);
    RearrangedScore(axes, a, b);
    forall k: nat ensures multiset(Column(a, k)) == multiset(Column(b, k)) {
      RearrangedColumns(a, b, k, 0);
    }
    if Distinct(a) {
      DistinctCounts(a);
      CountsDistinct(b);
    }
  }

  lemma {:induction false} DistinctCounts(a: seq<Row>)
    requires Distinct(a)
    ensures forall row :: multiset(a)[row] <= 1
  {
    if a != [] {
      var n := |a| - 1;
      DistinctCounts(a[..n]);
      assert a == a[..n] + [a[n]];
      assert a[n] !in a[..n];
    }
  }

  lemma CountsDistinct(a: seq<Row>)
    requires forall row :: multiset(a)[row] <= 1
    ensures Distinct(a)
  {
    forall i, j | 0 <= i < j < |a| ensures a[i] != a[j] {
      var rest := a[..j] + a[j + 1..];
      assert rest[i] == a[i];
      assert multiset(rest)[a[i]] >= 1;
      RemoveOne(a, j);
      assert multiset(a)[a[j]] == multiset(rest)[a[j]] + 1;
    }
  }

  /** A design has no repeated row exactly when its set of rows is as large as the design. */
  lemma {:induction false} DistinctIffSetSize(a: seq<Row>)
    ensures |set row | row in a| <= |a|
    ensures Distinct(a) <==> |set row | row in a| == |a|
  {
    if a == [] {
      assert (set row | row in a) == {};
    } else {
      var n := |a| - 1;
      var front, last := a[..n], a[n];
      DistinctIffSetSize(front);
      assert a == front + [last];
      assert (set row | row in a) == (set row | row in front) + {last};
      if last in front {
        var i :| 0 <= i < n && front[i] == last;
        assert a[i] == a[n];
      } else if Distinct(front) {
        assert forall i :: 0 <= i < n ==> a[i] == front[i] && a[i] != last;
      }
      if Distinct(a) {
        assert forall i, j :: 0 <= i < j < n ==> front[i] == a[i] && front[j] == a[j];
      }
    }
  }

  // ---------------------------------------------------------------------------
  // The search
  // ---------------------------------------------------------------------------

  /** How many rows have one of these pairs. */
  function Total(pairs: seq<(Level, Level)>, counts: multiset<(Level, Level)>): nat {
    if pairs == [] then 0 else Total(pairs[..|pairs| - 1], counts) + counts[pairs[|pairs| - 1]]
  }

  /** How many ordered pairs of rows agree in one of these pairs. */
  function Agreements(pairs: seq<(Level, Level)>, counts: multiset<(Level, Level)>): nat {
    if pairs == [] then 0
    else
      var c := counts[pairs[|pairs| - 1]];
      Agreements(pairs[..|pairs| - 1], counts) + c * c
  }

  /** The sum of squared deviations, multiplied out. */
  function Expansion(agreements: real, total: real, pairs: real, ideal: real): real {
    agreements - 2.0 * ideal * total + pairs * (ideal * ideal)
  }

  function Squared(x: real): real { x * x }

  lemma OneMorePair(agreements: real, total: real, pairs: real, c: real, ideal: real)
    ensures Expansion(agreements, total, pairs, ideal) + Squared(c - ideal) == Expansion(agreements + Squared(c), total + c, pairs + 1.0, ideal)
  {
    assert 2.0 * ideal * (total + c) == 2.0 * ideal * total + 2.0 * ideal * c;
    assert (pairs + 1.0) * (ideal * ideal) == pairs * (ideal * ideal) + ideal * ideal;
    assert (c - ideal) * (c - ideal) == c * c - 2.0 * ideal * c + ideal * ideal;
  }

  lemma LastDeviation(pairs: seq<(Level, Level)>, counts: multiset<(Level, Level)>, ideal: real)
    requires pairs != []
    ensures Deviation(pairs, counts, ideal) == Deviation(pairs[..|pairs| - 1], counts, ideal) + Squared(counts[pairs[|pairs| - 1]] as real - ideal)
  {
  }

  lemma SquareOfCount(c: nat)
    ensures (c * c) as real == Squared(c as real)
  {
  }

  lemma LastAgreements(pairs: seq<(Level, Level)>, counts: multiset<(Level, Level)>)
    requires pairs != []
    ensures Agreements(pairs, counts) as real == Agreements(pairs[..|pairs| - 1], counts) as real + Squared(counts[pairs[|pairs| - 1]] as real)
  {
    hide Squared;
    SquareOfCount(counts[pairs[|pairs| - 1]]);
  }

  lemma LastTotal(pairs: seq<(Level, Level)>, counts: multiset<(Level, Level)>)
    requires pairs != []
    ensures Total(pairs, counts) == Total(pairs[..|pairs| - 1], counts) + counts[pairs[|pairs| - 1]]
  {
  }

  lemma {:induction false} DeviationExpands(pairs: seq<(Level, Level)>, counts: multiset<(Level, Level)>, ideal: real)
    ensures Deviation(pairs, counts, ideal)
         == Expansion(Agreements(pairs, counts) as real, Total(pairs, counts) as real, |pairs| as real, ideal)
  {
    hide Expansion, Squared, Deviation, Agreements, Total;
    NothingExpands(counts, ideal);
    if pairs != [] {
      var n := |pairs| - 1;
      var front, c := pairs[..n], counts[pairs[n]] as real;
      DeviationExpands(front, counts, ideal);
      LastDeviation(pairs, counts, ideal);
      LastAgreements(pairs, counts);
      LastTotal(pairs, counts);
      OneMorePair(Agreements(front, counts) as real, Total(front, counts) as real, n as real, c, ideal);
    }
  }

  lemma NothingExpands(counts: multiset<(Level, Level)>, ideal: real)
    ensures Expansion(0.0, 0.0, 0.0, ideal) == 0.0 == Deviation([], counts, ideal)
    ensures Agreements([], counts) == 0 == Total([], counts)
  {
  }

  lemma {:induction false} SameTotal(pairs: seq<(Level, Level)>, a: multiset<(Level, Level)>, b: multiset<(Level, Level)>)
    requires forall p :: p in pairs ==> a[p] == b[p]
    ensures Total(pairs, a) == Total(pairs, b)
  {
    if pairs != [] {
      SameTotal(pairs[..|pairs| - 1], a, b);
    }
  }

  /** Each row counts once when the pairs are different and cover all rows. */
  lemma {:induction false} TotalIsSize(pairs: seq<(Level, Level)>, counts: multiset<(Level, Level)>)
    requires Distinct(pairs) && forall p :: p in counts ==> p in pairs
    ensures Total(pairs, counts) == |counts|
    decreases |pairs|
  {
    if pairs == [] {
      assert counts == multiset{};
    } else {
      var n := |pairs| - 1;
      var front, last := pairs[..n], pairs[n];
      var others := counts[last := 0];
      assert pairs == front + [last];
      forall p | p in others ensures p in front {
        assert p in counts && p != last;
      }
      TotalIsSize(front, others);
      assert last !in front;
      SameTotal(front, counts, others);
      assert counts == others[last := counts[last]];
    }
  }

  /** Every row has one level of each factor. */
  predicate FromAxes(axes: seq<seq<Level>>, rows: seq<Row>) {
    forall i, k | 0 <= i < |rows| && 0 <= k < |axes| :: Cell(rows[i], k) in axes[k]
  }

  lemma BalancedFromAxes(axes: seq<seq<Level>>, rows: seq<Row>, n: nat)
    requires forall k :: 0 <= k < |axes| ==> axes[k] != []
    requires Balanced(axes, rows, n)
    ensures FromAxes(axes, rows)
  {
    forall i, k | 0 <= i < |rows| && 0 <= k < |axes| ensures Cell(rows[i], k) in axes[k] {
      var v := Cell(rows[i], k);
      assert Column(rows, k)[i] == v;
      assert multiset(Column(rows, k))[v] > 0;
    }
  }

  /** How many ordered pairs of rows agree in both factors. */
  function PairAgreements(axes: seq<seq<Level>>, rows: seq<Row>, left: nat, right: nat): nat
    requires left < |axes| && right < |axes|
  {
    Agreements(Pairs(axes[left], axes[right]), multiset(PairColumn(rows, left, right)))
  }

  lemma PairScoreIs(axes: seq<seq<Level>>, rows: seq<Row>, left: nat, right: nat)
    requires left < |axes| && right < |axes| && axes[left] != [] && axes[right] != [] && FromAxes(axes, rows)
    ensures PairScore(axes, rows, left, right)
         == Expansion(PairAgreements(axes, rows, left, right) as real, |rows| as real, |Pairs(axes[left], axes[right])| as real, Ideal(axes, |rows|, left, right))
  {
    hide Deviation, Agreements, Total, Ideal, Expansion;
    var pairs, counts := Pairs(axes[left], axes[right]), multiset(PairColumn(rows, left, right));
    DeviationExpands(pairs, counts, Ideal(axes, |rows|, left, right));
    forall p | p in counts ensures p in pairs {
      assert p in PairColumn(rows, left, right);
    }
    TotalIsSize(pairs, counts);
  }

  function AgreementTable(axes: seq<seq<Level>>, rows: seq<Row>): (nat, nat) -> real {
    (left: nat, right: nat) => if left < |axes| && right < |axes| then PairAgreements(axes, rows, left, right) as real else 0.0
  }

  lemma {:induction false} SumsDiffer(n: nat, f: (nat, nat) -> real, g: (nat, nat) -> real, f': (nat, nat) -> real, g': (nat, nat) -> real, left: nat, right: nat)
    requires forall l: nat, r: nat {:trigger f(l, r)} :: l < n && r < n ==> f(l, r) - g(l, r) == f'(l, r) - g'(l, r)
    requires left <= n && right <= n && (left == n ==> right == 0)
    ensures PairSum(n, f, left, right) - PairSum(n, g, left, right) == PairSum(n, f', left, right) - PairSum(n, g', left, right)
    decreases left, right
  {
    if right > left + 1 {
      SumsDiffer(n, f, g, f', g', left, right - 1);
    } else if left > 0 {
      SumsDiffer(n, f, g, f', g', left - 1, n);
    }
  }

  lemma PairScoresDiffer(axes: seq<seq<Level>>, a: seq<Row>, b: seq<Row>, left: nat, right: nat)
    requires left < |axes| && right < |axes| && axes[left] != [] && axes[right] != []
    requires |a| == |b| && FromAxes(axes, a) && FromAxes(axes, b)
    ensures PairScore(axes, a, left, right) - PairScore(axes, b, left, right)
         == PairAgreements(axes, a, left, right) as real - PairAgreements(axes, b, left, right) as real
  {
    hide PairScore, PairAgreements, Ideal;
    PairScoreIs(axes, a, left, right);
    PairScoreIs(axes, b, left, right);
  }

  /** Of two designs of one size, the better score has the fewer agreements of two rows in two factors, by exactly the difference. */
  lemma ScoreCountsAgreements(axes: seq<seq<Level>>, a: seq<Row>, b: seq<Row>)
    requires (forall k :: 0 <= k < |axes| ==> axes[k] != []) && |a| == |b| && FromAxes(axes, a) && FromAxes(axes, b)
    ensures Score(axes, a) - Score(axes, b)
         == PairSum(|axes|, AgreementTable(axes, a), |axes|, 0) - PairSum(|axes|, AgreementTable(axes, b), |axes|, 0)
  {
    hide PairScore, PairAgreements;
    forall l: nat, r: nat | l < |axes| && r < |axes|
      ensures PairScores(axes, a)(l, r) - PairScores(axes, b)(l, r) == AgreementTable(axes, a)(l, r) - AgreementTable(axes, b)(l, r)
    {
      PairScoresDiffer(axes, a, b, l, r);
    }
    SumsDiffer(|axes|, PairScores(axes, a), PairScores(axes, b), AgreementTable(axes, a), AgreementTable(axes, b), |axes|, 0);
  }

  method CountPairs(rows: seq<Row>, left: nat, right: nat, pairs: seq<(Level, Level)>) returns (counts: map<(Level, Level), int>)
    requires forall i :: 0 <= i < |rows| ==> (Cell(rows[i], left), Cell(rows[i], right)) in pairs
    ensures counts.Keys == set p | p in pairs
    ensures forall p :: p in counts ==> counts[p] == multiset(PairColumn(rows, left, right))[p]
  {
    counts := map p | p in pairs :: 0;
    for i := 0 to |rows|
      invariant counts.Keys == set p | p in pairs
      invariant forall p :: p in counts ==> counts[p] == multiset(PairColumn(rows, left, right)[..i])[p]
    {
      var key := (Cell(rows[i], left), Cell(rows[i], right));
      var column := PairColumn(rows, left, right);
      assert column[..i + 1] == column[..i] + [key];
      counts := counts[key := counts[key] + 1];
    }
    assert PairColumn(rows, left, right)[..|rows|] == PairColumn(rows, left, right);
  }

  lemma DeviationStep(pairs: seq<(Level, Level)>, j: nat, counts: multiset<(Level, Level)>, ideal: real, d: real)
    requires j < |pairs| && d == counts[pairs[j]] as real - ideal
    ensures Deviation(pairs[..j + 1], counts, ideal) == Deviation(pairs[..j], counts, ideal) + d * d
  {
    assert pairs[..j + 1][..j] == pairs[..j];
  }

  method SumDeviations(pairs: seq<(Level, Level)>, counts: map<(Level, Level), int>, ideal: real, ghost column: multiset<(Level, Level)>)
    returns (score: real)
    requires forall j :: 0 <= j < |pairs| ==> pairs[j] in counts && counts[pairs[j]] == column[pairs[j]]
    ensures score == Deviation(pairs, column, ideal)
  {
    score := 0.0;
    for j := 0 to |pairs|
      invariant score == Deviation(pairs[..j], column, ideal)
    {
      var d := counts[pairs[j]] as real - ideal;
      DeviationStep(pairs, j, column, ideal, d);
      score := score + d * d;
    }
    assert pairs[..|pairs|] == pairs;
  }

  method ScorePair(axes: seq<seq<Level>>, rows: seq<Row>, left: nat, right: nat) returns (score: real)
    requires left < |axes| && right < |axes| && axes[left] != [] && axes[right] != [] && FromAxes(axes, rows)
    ensures score == PairScore(axes, rows, left, right)
  {
    var pairs := Pairs(axes[left], axes[right]);
    var counts := CountPairs(rows, left, right, pairs);
    score := SumDeviations(pairs, counts, Ideal(axes, |rows|, left, right), multiset(PairColumn(rows, left, right)));
  }

  method ComputeScore(axes: seq<seq<Level>>, rows: seq<Row>) returns (score: real)
    requires FromAxes(axes, rows) && forall k :: 0 <= k < |axes| ==> axes[k] != []
    ensures score == Score(axes, rows)
  {
    ghost var scores := PairScores(axes, rows);
    score := 0.0;
    for left := 0 to |axes|
      invariant score == PairSum(|axes|, scores, left, 0)
    {
      for right := left + 1 to |axes|
        invariant score == PairSum(|axes|, scores, left, right)
      {
        var s := ScorePair(axes, rows, left, right);
        score := score + s;
      }
      RowDone(|axes|, scores, left);
    }
  }

  lemma RowDone(n: nat, scores: (nat, nat) -> real, left: nat)
    requires left < n
    ensures PairSum(n, scores, left, n) == PairSum(n, scores, left + 1, 0)
  {
  }

  const ATTEMPTS: nat := 512

  ghost predicate Acceptable(axes: seq<seq<Level>>, n: nat, shuffle: Shuffle, attempt: nat)
    requires Fits(axes, n) && Rearranges(shuffle)
  {
    Distinct(AttemptRows(axes, n, shuffle, attempt))
  }

  /** The rows are those of an acceptable attempt before `bound`, and none of those attempts scores lower. */
  ghost predicate BestBefore(axes: seq<seq<Level>>, n: nat, shuffle: Shuffle, bound: nat, rows: seq<Row>, attempt: nat)
    requires Fits(axes, n) && Rearranges(shuffle)
  {
    && attempt < bound && rows == AttemptRows(axes, n, shuffle, attempt) && Distinct(rows)
    && forall other: nat :: other < bound && Acceptable(axes, n, shuffle, other) ==>
         Score(axes, rows) <= Score(axes, AttemptRows(axes, n, shuffle, other))
  }

  /** Builds the rows of one attempt. */
  method BuildRows(axes: seq<seq<Level>>, n: nat, shuffle: Shuffle, attempt: nat) returns (rows: seq<Row>)
    requires Fits(axes, n) && Rearranges(shuffle)
    ensures rows == AttemptRows(axes, n, shuffle, attempt)
  {
    var columns: seq<seq<Level>> := [];
    for k := 0 to |axes|
      invariant |columns| == k
      invariant forall j :: 0 <= j < k ==> columns[j] == Columns(axes, n, shuffle, attempt)[j]
    {
      var repeats := n / |axes[k]|;
      columns := columns + [shuffle(attempt, k, Repeated(axes[k], repeats))];
    }
    assert columns == Columns(axes, n, shuffle, attempt);
    forall k | 0 <= k < |axes| ensures |columns[k]| == n {
      ColumnLength(axes, n, shuffle, attempt, k);
    }
    rows := Rows(columns, n);
  }

  /**
   * The best acceptable attempt of all, even when the search stops early, because
   * it stops only at a perfect score.
   */
  method Search(axes: seq<seq<Level>>, n: nat, shuffle: Shuffle) returns (best: Option<seq<Row>>, ghost winner: nat)
    requires Fits(axes, n) && Rearranges(shuffle)
    ensures best.Some? ==> BestBefore(axes, n, shuffle, ATTEMPTS, best.value, winner)
    ensures best.None? ==> forall attempt: nat :: attempt < ATTEMPTS ==> !Acceptable(axes, n, shuffle, attempt)
  {
    best, winner := None, 0;
    var bestScore := 0.0;
    for attempt := 0 to ATTEMPTS
      invariant best.Some? ==> BestBefore(axes, n, shuffle, attempt, best.value, winner) && bestScore == Score(axes, best.value)
      invariant best.None? ==> forall other: nat :: other < attempt ==> !Acceptable(axes, n, shuffle, other)
    {
      var rows := BuildRows(axes, n, shuffle, attempt);
      DistinctIffSetSize(rows);
      if |set row | row in rows| != n {
        continue;
      }
      AttemptIsBalanced(axes, n, shuffle, attempt);
      BalancedFromAxes(axes, rows, n);
      var score := ComputeScore(axes, rows);
      if best.None? || score < bestScore {
        best, bestScore, winner := Some(rows), score, attempt;
        if score == 0.0 {
          break;
        }
      }
    }
  }

  // ---------------------------------------------------------------------------
  // The full factorial
  // ---------------------------------------------------------------------------

  function ExtendAll(rows: seq<Row>, levels: seq<Level>): (r: seq<Row>)
    ensures |r| == |rows| * |levels|
  {
    if rows == [] then []
    else
      var n := |rows| - 1;
      NextMultiple(|levels|, |rows|);
      ExtendAll(rows[..n], levels) + seq(|levels|, j requires 0 <= j < |levels| => rows[n] + [levels[j]])
  }

  /** The Cartesian product of the factors, the last one varying fastest. */
  function Product(axes: seq<seq<Level>>): (r: seq<Row>)
    ensures |r| == FullCount(axes)
  {
    if axes == [] then [[]] else ExtendAll(Product(axes[..|axes| - 1]), axes[|axes| - 1])
  }

  lemma {:induction false} InExtendAll(rows: seq<Row>, levels: seq<Level>, row: Row)
    ensures row in ExtendAll(rows, levels) <==> row != [] && row[..|row| - 1] in rows && row[|row| - 1] in levels
  {
    if rows != [] {
      var n := |rows| - 1;
      var added := seq(|levels|, j requires 0 <= j < |levels| => rows[n] + [levels[j]]);
      InExtendAll(rows[..n], levels, row);
      assert rows == rows[..n] + [rows[n]];
      assert row in ExtendAll(rows, levels) <==> row in ExtendAll(rows[..n], levels) || row in added;
      if row != [] && row[..|row| - 1] == rows[n] && row[|row| - 1] in levels {
        var j :| 0 <= j < |levels| && levels[j] == row[|row| - 1];
        assert added[j] == row;
      }
    }
  }

  lemma {:induction false} ExtendAt(rows: seq<Row>, levels: seq<Level>, i: nat, j: nat)
    requires i < |rows| && j < |levels|
    ensures 0 <= i * |levels| + j < |ExtendAll(rows, levels)| && ExtendAll(rows, levels)[i * |levels| + j] == rows[i] + [levels[j]]
    decreases |rows|
  {
    var n := |rows| - 1;
    NextMultiple(|levels|, |rows|);
    if i < n {
      ExtendAt(rows[..n], levels, i, j);
    } else {
      assert |ExtendAll(rows[..n], levels)| == n * |levels|;
    }
  }

  /** The rows come in the order of nested loops, the last factor varying fastest. */
  lemma ProductAt(axes: seq<seq<Level>>, i: nat, j: nat)
    requires axes != [] && i < |Product(axes[..|axes| - 1])| && j < |axes[|axes| - 1]|
    ensures var k := i * |axes[|axes| - 1]| + j;
            0 <= k < |Product(axes)| && Product(axes)[k] == Product(axes[..|axes| - 1])[i] + [axes[|axes| - 1][j]]
  {
    ExtendAt(Product(axes[..|axes| - 1]), axes[|axes| - 1], i, j);
  }

  /** It consists of exactly the rows with one level of every factor. */
  lemma {:induction false} ProductIs(axes: seq<seq<Level>>, row: Row)
    ensures row in Product(axes) <==> |row| == |axes| && forall k :: 0 <= k < |axes| ==> row[k] in axes[k]
  {
    if axes != [] {
      var n := |axes| - 1;
      InExtendAll(Product(axes[..n]), axes[n], row);
      if row != [] {
        ProductIs(axes[..n], row[..|row| - 1]);
      }
    }
  }

  // ---------------------------------------------------------------------------
  // The order of execution
  // ---------------------------------------------------------------------------

  function IntOf(level: Level): int { if level.Number? then level.n else 0 }

  function LossOf(level: Level): real { if level.Percent? then level.p else 0.0 }

  function QuorumOf(level: Level): (int, int) { if level.Quorum? then (level.authorities, level.threshold) else (0, 0) }

  /** Shorter outages, fewer events, fewer devices, smaller blocks, less loss and smaller quorums first. */
  predicate Earlier(a: Row, b: Row) {
    if IntOf(Cell(a, 5)) != IntOf(Cell(b, 5)) then IntOf(Cell(a, 5)) < IntOf(Cell(b, 5))
    else if IntOf(Cell(a, 1)) != IntOf(Cell(b, 1)) then IntOf(Cell(a, 1)) < IntOf(Cell(b, 1))
    else if IntOf(Cell(a, 0)) != IntOf(Cell(b, 0)) then IntOf(Cell(a, 0)) < IntOf(Cell(b, 0))
    else if IntOf(Cell(a, 2)) != IntOf(Cell(b, 2)) then IntOf(Cell(a, 2)) < IntOf(Cell(b, 2))
    else if LossOf(Cell(a, 4)) != LossOf(Cell(b, 4)) then LossOf(Cell(a, 4)) < LossOf(Cell(b, 4))
    else if QuorumOf(Cell(a, 3)).0 != QuorumOf(Cell(b, 3)).0 then QuorumOf(Cell(a, 3)).0 < QuorumOf(Cell(b, 3)).0
    else QuorumOf(Cell(a, 3)).1 < QuorumOf(Cell(b, 3)).1
  }

  /** What the rows are sorted by, most significant first: outage, events, devices, block size, loss, authorities and threshold. */
  function SortKey(row: Row): (r: seq<real>)
    ensures |r| == 7
  {
    [IntOf(Cell(row, 5)) as real, IntOf(Cell(row, 1)) as real, IntOf(Cell(row, 0)) as real, IntOf(Cell(row, 2)) as real,
     LossOf(Cell(row, 4)), QuorumOf(Cell(row, 3)).0 as real, QuorumOf(Cell(row, 3)).1 as real]
  }

  /** The keys differ first at position i, where x has the smaller part. */
  predicate SmallerAt(x: seq<real>, y: seq<real>, i: nat)
    requires |x| == |y|
  {
    i < |x| && x[i] < y[i] && forall j | 0 <= j < i :: x[j] == y[j]
  }

  /** A row is earlier exactly when its key is lexicographically smaller. */
  lemma EarlierIff(a: Row, b: Row)
    ensures Earlier(a, b) <==> exists i: nat :: SmallerAt(SortKey(a), SortKey(b), i)
  {
    var x, y := SortKey(a), SortKey(b);
    if Earlier(a, b) {
      var i := if x[0] != y[0] then 0 else if x[1] != y[1] then 1 else if x[2] != y[2] then 2 else if x[3] != y[3] then 3
               else if x[4] != y[4] then 4 else if x[5] != y[5] then 5 else 6;
      assert SmallerAt(x, y, i);
    }
    if i: nat :| SmallerAt(x, y, i) {
      assert (i > 0 ==> x[0] == y[0]) && (i > 1 ==> x[1] == y[1]) && (i > 2 ==> x[2] == y[2]);
      assert (i > 3 ==> x[3] == y[3]) && (i > 4 ==> x[4] == y[4]) && (i > 5 ==> x[5] == y[5]);
    }
  }

  ghost predicate Ordered(rows: seq<Row>) {
    forall i, j :: 0 <= i < j < |rows| ==> !Earlier(rows[j], rows[i])
  }

  lemma NotEarlierTransitive(a: Row, b: Row, c: Row)
    requires !Earlier(b, a) && !Earlier(c, b)
    ensures !Earlier(c, a)
  {
  }

  /** A stable insertion into an ordered list. */
  function Insert(rows: seq<Row>, row: Row): (r: seq<Row>)
    ensures multiset(r) == multiset(rows) + multiset{row}
  {
    if rows == [] then [row]
    else
      var n := |rows| - 1;
      assert rows == rows[..n] + [rows[n]];
      if Earlier(row, rows[n]) then Insert(rows[..n], row) + [rows[n]] else rows + [row]
  }

  function SortRows(rows: seq<Row>): (r: seq<Row>)
    ensures multiset(r) == multiset(rows)
  {
    if rows == [] then []
    else
      assert rows == rows[..|rows| - 1] + [rows[|rows| - 1]];
      Insert(SortRows(rows[..|rows| - 1]), rows[|rows| - 1])
  }

  lemma {:induction false} InsertOrdered(rows: seq<Row>, row: Row)
    requires Ordered(rows)
    ensures Ordered(Insert(rows, row))
  {
    if rows != [] {
      var n := |rows| - 1;
      var r := Insert(rows, row);
      if Earlier(row, rows[n]) {
        InsertOrdered(rows[..n], row);
        forall i | 0 <= i < |r| - 1 ensures !Earlier(rows[n], r[i]) {
          assert r[i] in multiset(Insert(rows[..n], row));
          assert r[i] in multiset(rows[..n]) + multiset{row};
          EarlierAsymmetric(row, rows[n]);
        }
      } else {
        forall i | 0 <= i < |rows| ensures !Earlier(row, rows[i]) {
          if i < n {
            NotEarlierTransitive(rows[i], rows[n], row);
          }
        }
      }
    }
  }

  lemma EarlierAsymmetric(a: Row, b: Row)
    requires Earlier(a, b)
    ensures !Earlier(b, a)
  {
  }

  lemma {:induction false} SortedIsOrdered(rows: seq<Row>)
    ensures Ordered(SortRows(rows))
  {
    if rows != [] {
      SortedIsOrdered(rows[..|rows| - 1]);
      InsertOrdered(SortRows(rows[..|rows| - 1]), rows[|rows| - 1]);
    }
  }

  // ---------------------------------------------------------------------------
  // The selected configurations
  // ---------------------------------------------------------------------------

  datatype DesignError = NoUniqueDesign

  lemma ValidPlanFits(plan: Plan)
    requires Validate(plan).None?
    ensures forall k :: 0 <= k < 6 ==> Axes(plan)[k] != []
    ensures plan.designType == "balanced_screening" ==> plan.samples.Some? && plan.samples.value >= 1 && Fits(Axes(plan), plan.samples.value)
  {
  }

  /** A balanced design that no other acceptable attempt beats, in the order of execution. */
  ghost predicate Selected(axes: seq<seq<Level>>, n: nat, shuffle: Shuffle, rows: seq<Row>)
    requires Fits(axes, n) && Rearranges(shuffle)
  {
    && |rows| == n && Distinct(rows) && Balanced(axes, rows, n) && Ordered(rows)
    && (exists winner: nat :: winner < ATTEMPTS && multiset(rows) == multiset(AttemptRows(axes, n, shuffle, winner)))
    && (forall other: nat :: other < ATTEMPTS && Acceptable(axes, n, shuffle, other) ==>
          Score(axes, rows) <= Score(axes, AttemptRows(axes, n, shuffle, other)))
  }

  method SelectedConfigurations(plan: Plan, shuffle: Shuffle) returns (r: Result<seq<Row>, DesignError>)
    requires Validate(plan).None? && Rearranges(shuffle)
    ensures plan.designType == "full_factorial" ==> r == Ok(Product(Axes(plan)))
    ensures plan.designType == "balanced_screening" ==> plan.samples.Some? && plan.samples.value >= 1 && Fits(Axes(plan), plan.samples.value)
    ensures plan.designType == "balanced_screening" && r.Ok? ==> Selected(Axes(plan), plan.samples.value, shuffle, r.value)
    ensures plan.designType == "balanced_screening" && r.Err? ==>
              forall attempt: nat :: attempt < ATTEMPTS ==> !Acceptable(Axes(plan), plan.samples.value, shuffle, attempt)
  {
    ValidPlanFits(plan);
    var axes := Axes(plan);
    if plan.designType == "full_factorial" {
      return Ok(Product(axes));
    }
    var n := plan.samples.value;
    var best; ghost var winner;
    best, winner := Search(axes, n, shuffle);
    if best.None? {
      return Err(NoUniqueDesign);
    }
    SortedSelection(axes, n, shuffle, best.value, winner);
    r := Ok(SortRows(best.value));
  }

  lemma SortedSelection(axes: seq<seq<Level>>, n: nat, shuffle: Shuffle, rows: seq<Row>, winner: nat)
    requires Fits(axes, n) && Rearranges(shuffle) && BestBefore(axes, n, shuffle, ATTEMPTS, rows, winner)
    ensures Selected(axes, n, shuffle, SortRows(rows))
  {
    AttemptIsBalanced(axes, n, shuffle, winner);
    OrderIsIrrelevant(axes, rows, SortRows(rows), n);
    SortedIsOrdered(rows);
  }

  /** When a factor lists each level once, every level of it occurs equally often. */
  lemma EveryLevelEquallyOften(axes: seq<seq<Level>>, n: nat, rows: seq<Row>, k: nat, v: Level)
    requires Fits(axes, n) && Balanced(axes, rows, n) && k < |axes| && Distinct(axes[k]) && v in axes[k]
    ensures multiset(Column(rows, k))[v] == n / |axes[k]|
    ensures |axes[k]| * (n / |axes[k]|) == n
  {
    OnceEach(axes[k], v);
    Divides(n, |axes[k]|);
  }

  lemma {:induction false} OnceEach(levels: seq<Level>, v: Level)
    requires Distinct(levels)
    ensures multiset(levels)[v] == if v in levels then 1 else 0
  {
    if levels != [] {
      var n := |levels| - 1;
      OnceEach(levels[..n], v);
      assert levels == levels[..n] + [levels[n]];
    }
  }
}
