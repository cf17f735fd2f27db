/** What `tables` and `charts` compute from the series: one row per
    transaction and per HTTP code, and one chart line per series. */
module TsungReport {
  import opened Wrappers
  import opened Strings
  import opened Utils
  import opened Builtins
  import opened TsungLog
  import opened TsungNames
  import opened TsungSeries

  // Tables

  /** The periods whose count is positive, in increasing order. */
  function CountedPeriods(counts: seq<int>): (ix: seq<nat>)
    ensures forall j :: 0 <= j < |ix| ==> ix[j] < |counts| && counts[ix[j]] > 0
    ensures forall j, k :: 0 <= j < k < |ix| ==> ix[j] < ix[k]
    ensures forall i :: 0 <= i < |counts| && counts[i] > 0 ==> i in ix
    decreases |counts|
  {
    if counts == [] then []
    else
      var init := counts[..|counts| - 1];
      assert forall i :: 0 <= i < |init| ==> counts[i] == init[i];
      CountedPeriods(init) + (if counts[|counts| - 1] > 0 then [|counts| - 1] else [])
  }

  /** The counts of a list of (value, count) pairs. */
  function Seconds(pairs: seq<(Num, int)>): (cs: seq<int>)
    ensures |cs| == |pairs| && forall i :: 0 <= i < |pairs| ==> cs[i] == pairs[i].1
  {
    seq(|pairs|, i requires 0 <= i < |pairs| => pairs[i].1)
  }

  /** `[value for value, count in pairs if count > 0]`: the values of the
      counted pairs, in order and with their repetitions. */
  function KeepCounted(pairs: seq<(Num, int)>): (r: seq<Num>)
    ensures forall v :: v in r <==> exists i :: 0 <= i < |pairs| && pairs[i].1 > 0 && pairs[i].0 == v
    ensures |r| <= |pairs|
    decreases |pairs|
  {
    if pairs == [] then []
    else
      var init := pairs[..|pairs| - 1];
      var p := pairs[|pairs| - 1];
      assert forall i :: 0 <= i < |init| ==> pairs[i] == init[i];
      KeepCounted(init) + (if p.1 > 0 then [p.0] else [])
  }

  /** KeepCounted keeps the value of each counted pair, in order and with
      its repetitions: its `j`-th value is that of the `j`-th counted pair. */
  lemma {:induction false} KeepCountedSelects(pairs: seq<(Num, int)>)
    ensures var r, ix := KeepCounted(pairs), CountedPeriods(Seconds(pairs));
      |r| == |ix| && forall j :: 0 <= j < |ix| ==> r[j] == pairs[ix[j]].0
    decreases |pairs|
  {
    if pairs != [] {
      var init := pairs[..|pairs| - 1];
      KeepCountedSelects(init);
      KeepCountedLast(pairs, KeepCounted(init));
    }
  }

  /** The step of KeepCounted: one more pair keeps its value exactly when
      it is counted. */
  lemma KeepCountedLast(pairs: seq<(Num, int)>, ri: seq<Num>)
    requires |pairs| > 0
    requires var ii := CountedPeriods(Seconds(pairs[..|pairs| - 1]));
      |ri| == |ii| && forall j :: 0 <= j < |ii| ==> ri[j] == pairs[..|pairs| - 1][ii[j]].0
    ensures var p := pairs[|pairs| - 1];
      var r := ri + (if p.1 > 0 then [p.0] else []);
      var ix := CountedPeriods(Seconds(pairs));
      |r| == |ix| && forall j :: 0 <= j < |ix| ==> r[j] == pairs[ix[j]].0
  {
    var init := pairs[..|pairs| - 1];
    var p := pairs[|pairs| - 1];
    SecondsInit(pairs);
    var ii := CountedPeriods(Seconds(init));
    var ix := CountedPeriods(Seconds(pairs));
    var r := ri + (if p.1 > 0 then [p.0] else []);
    assert ix == ii + (if p.1 > 0 then [|pairs| - 1] else []);
    forall j | 0 <= j < |ix| ensures r[j] == pairs[ix[j]].0 {
      if j < |ii| {
        assert ix[j] == ii[j] && r[j] == ri[j];
      }
    }
  }

  lemma SecondsInit(pairs: seq<(Num, int)>)
    requires |pairs| > 0
    ensures Seconds(pairs)[..|pairs| - 1] == Seconds(pairs[..|pairs| - 1])
    ensures Seconds(pairs)[|pairs| - 1] == pairs[|pairs| - 1].1
  {
  }

  /** The shorter length of two lists, as `zip` pairs them. */
  function Shorter<A, B>(a: seq<A>, b: seq<B>): nat
  {
    if |a| <= |b| then |a| else |b|
  }

  /** The 10-second means of the periods that counted at least one
      transaction, matched by position against the counts: one value per
      counted period, in order. */
  function ValuesWithoutZero(means: seq<Num>, counts: seq<int>): (r: seq<Num>)
    ensures forall v :: v in r <==> exists i :: 0 <= i < |means| && i < |counts| && counts[i] > 0 && means[i] == v
  {
    var z := Zip(means, counts);
    var r := KeepCounted(z);
    assert forall v :: v in r <==> exists i :: 0 <= i < |z| && z[i].1 > 0 && z[i].0 == v;
    r
  }

  /** The kept means are one per counted period, in order: the `j`-th is
      the mean of the `j`-th period whose count is positive. */
  lemma ValuesWithoutZeroSelects(means: seq<Num>, counts: seq<int>)
    ensures var r, ix := ValuesWithoutZero(means, counts), CountedPeriods(counts[..Shorter(means, counts)]);
      |r| == |ix| && forall j :: 0 <= j < |ix| ==> ix[j] < |means| && r[j] == means[ix[j]]
  {
    var z := Zip(means, counts);
    assert Seconds(z) == counts[..Shorter(means, counts)];
    KeepCountedSelects(z);
  }

  /** Some period was counted exactly when a value is kept. */
  lemma SomeCounted(means: seq<Num>, counts: seq<int>)
    ensures ValuesWithoutZero(means, counts) != [] <==> exists i :: 0 <= i < |means| && i < |counts| && counts[i] > 0
  {
    var values := ValuesWithoutZero(means, counts);
    if values != [] {
      assert values[0] in values;
    } else {
      assert forall i :: 0 <= i < |means| && i < |counts| && counts[i] > 0 ==> means[i] in values;
    }
  }

  /** `[count/10 for count in counts]`: transactions per second. */
  function Rates(counts: seq<int>): (r: seq<Num>)
    ensures |r| == |counts|
    ensures forall i :: 0 <= i < |counts| ==> r[i] == Float(counts[i] as real / 10.0)
    decreases |counts|
  {
    if counts == [] then []
    else Rates(counts[..|counts| - 1]) + [Float(counts[|counts| - 1] as real / 10.0)]
  }

  /** `[count/10 for count in counts if count > 0]`. */
  function PositiveRates(counts: seq<int>): (r: seq<Num>)
    ensures forall x :: x in r <==> exists i :: 0 <= i < |counts| && counts[i] > 0 && x == Float(counts[i] as real / 10.0)
    decreases |counts|
  {
    if counts == [] then []
    else
      var init := counts[..|counts| - 1];
      var c := counts[|counts| - 1];
      assert forall i :: 0 <= i < |init| ==> counts[i] == init[i];
      PositiveRates(init) + (if c > 0 then [Float(c as real / 10.0)] else [])
  }

  /** The numbers behind a transaction row. */
  datatype TransactionStats = TransactionStats(highest: Num, lowest: Num, mean: real, highestRate: Num, meanRate: real, total: int)

  /** The statistics of one transaction from its mean and count series:
      max, min and mean of the means of periods with a count, the total
      count, and the highest and mean per-second rate over all periods;
      ValueError when no period counted anything. */
  function TransactionStatsOf(means: seq<Num>, counts: seq<int>): (r: Result<TransactionStats>)
    ensures r.Ok? <==> exists i :: 0 <= i < |means| && i < |counts| && counts[i] > 0
    ensures r.Err? ==> r.error == ValueError
  {
    var values := ValuesWithoutZero(means, counts);
    SomeCounted(means, counts);
    match Max(values)
    case Err(e) => Err(e)
    case Ok(highest) =>
      var lowest := Min(values).value;
      var rates := Rates(counts);
      var highestRate := Max(rates).value;
      Ok(TransactionStats(highest, lowest, Sum(values) / |values| as real,
                          highestRate, Sum(rates) / |rates| as real, Total(counts)))
  }

  /** A row of the transaction table, as the report prints it. */
  datatype TransactionRow = TransactionRow(name: string, highestMean: string, lowestMean: string,
                                           highestRate: string, meanRate: string, mean: string, total: int)

  function TransactionRowOf(name: string, st: TransactionStats): (row: TransactionRow)
    ensures row.name == name && row.total == st.total
  {
    TransactionRow(name, StrSec(st.highest), StrSec(st.lowest),
                   StrNumber(st.highestRate, 2, "/sec"), StrNumber(Float(st.meanRate), 2, "/sec"),
                   StrSec(Float(st.mean)), st.total)
  }

  /** One pass of the transaction loop of `tables`: `self.mean[name]` is
      looked up before `self.count[name]`. */
  function TransactionEntry(name: string, mean: map<string, Series<Num>>, count: map<string, Series<int>>): (r: Result<TransactionRow>)
    ensures name !in mean || name !in count ==> r == Err(KeyError)
    ensures r.Ok? <==> name in mean && name in count && TransactionStatsOf(mean[name].values, count[name].values).Ok?
  {
    if name !in mean then Err(KeyError)
    else if name !in count then Err(KeyError)
    else
      match TransactionStatsOf(mean[name].values, count[name].values)
      case Err(e) => Err(e)
      case Ok(st) => Ok(TransactionRowOf(name, st))
  }

  /** The numbers behind an HTTP row. */
  datatype HttpStats = HttpStats(highestRate: Num, meanRate: real, total: int)

  /** The statistics of one HTTP code: the highest per-second rate over the
      periods that saw it (ValueError when none did) and the mean rate over
      the whole test (ZeroDivisionError when the test lasted no time). */
  function HttpStatsOf(counts: seq<int>, duration: int): (r: Result<HttpStats>)
    ensures r.Ok? <==> (exists i :: 0 <= i < |counts| && counts[i] > 0) && duration != 0
    ensures r.Err? && (exists i :: 0 <= i < |counts| && counts[i] > 0) ==> r.error == ZeroDivisionError
    ensures r.Err? && !(exists i :: 0 <= i < |counts| && counts[i] > 0) ==> r.error == ValueError
  {
    var total := Total(counts);
    var rates := PositiveRates(counts);
    match Max(rates)
    case Err(e) =>
      assert forall i :: 0 <= i < |counts| && counts[i] > 0 ==> Float(counts[i] as real / 10.0) in rates;
      Err(e)
    case Ok(highestRate) =>
      if duration == 0 then Err(ZeroDivisionError)
      else Ok(HttpStats(highestRate, PerSecond(total, duration), total))
  }

  /** `total / duration`, true division. */
  function PerSecond(total: int, duration: int): (r: real)
    requires duration != 0
    ensures r * duration as real == total as real
  {
    total as real / duration as real
  }

  datatype HttpRow = HttpRow(name: string, highestRate: string, meanRate: string, total: int)

  function HttpRowOf(name: string, st: HttpStats): (row: HttpRow)
    ensures row.name == name && row.total == st.total
  {
    HttpRow(name, StrNumber(st.highestRate, 2, "/sec"), StrNumber(Float(st.meanRate), 2, "/sec"), st.total)
  }

  /** One pass of the HTTP loop of `tables`. */
  function HttpEntry(name: string, count: map<string, Series<int>>, duration: int): (r: Result<HttpRow>)
    ensures name !in count ==> r == Err(KeyError)
    ensures r.Ok? <==> name in count && HttpStatsOf(count[name].values, duration).Ok?
  {
    if name !in count then Err(KeyError)
    else
      match HttpStatsOf(count[name].values, duration)
      case Err(e) => Err(e)
      case Ok(st) => Ok(HttpRowOf(name, st))
  }

  /** The two tables `tables` fills. */
  datatype Tables = Tables(transaction: seq<TransactionRow>, http: seq<HttpRow>)

  /** The test lasted from `start` to the last block's timestamp (IndexError
      with no blocks, KeyError when the last block is unstamped). */
  function Duration(blocks: seq<Block>, start: int): (r: Result<int>)
    ensures r.Ok? <==> blocks != [] && blocks[|blocks| - 1].timestamp.Some?
    ensures r.Ok? ==> r.value == blocks[|blocks| - 1].timestamp.value - start
  {
    if blocks == [] then Err(IndexError)
    else if blocks[|blocks| - 1].timestamp.None? then Err(KeyError)
    else Ok(blocks[|blocks| - 1].timestamp.value - start)
  }

  /** The passes of the transaction loop over `names`, in order. */
  function TransactionEntries(names: seq<string>, mean: map<string, Series<Num>>, count: map<string, Series<int>>): (r: seq<Result<TransactionRow>>)
    ensures |r| == |names|
    decreases |names|
  {
    if names == [] then []
    else TransactionEntries(names[..|names| - 1], mean, count) + [TransactionEntry(names[|names| - 1], mean, count)]
  }

  lemma {:induction false} TransactionEntriesAt(names: seq<string>, mean: map<string, Series<Num>>, count: map<string, Series<int>>, k: nat)
    requires k < |names|
    ensures TransactionEntries(names, mean, count)[k] == TransactionEntry(names[k], mean, count)
    decreases |names|
  {
    if k < |names| - 1 {
      var init := names[..|names| - 1];
      TransactionEntriesAt(init, mean, count, k);
      assert init[k] == names[k];
    }
  }

  /** The passes of the HTTP loop over `names`, in order. */
  function HttpEntries(names: seq<string>, count: map<string, Series<int>>, duration: int): (r: seq<Result<HttpRow>>)
    ensures |r| == |names|
    decreases |names|
  {
    if names == [] then []
    else HttpEntries(names[..|names| - 1], count, duration) + [HttpEntry(names[|names| - 1], count, duration)]
  }

  lemma {:induction false} HttpEntriesAt(names: seq<string>, count: map<string, Series<int>>, duration: int, k: nat)
    requires k < |names|
    ensures HttpEntries(names, count, duration)[k] == HttpEntry(names[k], count, duration)
    decreases |names|
  {
    if k < |names| - 1 {
      var init := names[..|names| - 1];
      HttpEntriesAt(init, count, duration, k);
      assert init[k] == names[k];
    }
  }

  /** `tables`: the duration first, then a row per transaction in sorted
      order, then a row per HTTP code in sorted order; the first exception
      ends it. */
  function TablesOf(blocks: seq<Block>, start: int, g: Groups, count: map<string, Series<int>>, mean: map<string, Series<Num>>): Result<Tables>
  {
    match Duration(blocks, start)
    case Err(e) => Err(e)
    case Ok(duration) =>
      match Collect(TransactionEntries(SortedNames(g.transaction), mean, count))
      case Err(e) => Err(e)
      case Ok(trows) =>
        match Collect(HttpEntries(SortedNames(g.http), count, duration))
        case Err(e) => Err(e)
        case Ok(hrows) => Ok(Tables(trows, hrows))
  }

  // Charts

  datatype Point = Point(x: int, y: Num)

  /** One line of a chart: `{"label", "fill", "tension", "data"}`, the label being `name`. */
  datatype ChartLine = ChartLine(name: string, fill: bool, tension: int, points: seq<Point>)

  function PointsOfPairs(z: seq<(int, Num)>): (r: seq<Point>)
    ensures |r| == |z| && forall i :: 0 <= i < |z| ==> r[i] == Point(z[i].0, z[i].1)
  {
    seq(|z|, i requires 0 <= i < |z| => Point(z[i].0, z[i].1))
  }

  /** The points of a series that starts `x0` seconds into the test: one
      point every ten seconds. */
  function Points(x0: int, ys: seq<Num>): (r: seq<Point>)
    ensures |r| == |ys|
    ensures forall i :: 0 <= i < |ys| ==> r[i] == Point(x0 + i * 10, ys[i])
  {
    RangeSteps(x0, |ys|, 10);
    PointsOfPairs(Zip(Range(x0, x0 + |ys| * 10, 10), ys))
  }

  function LineOf(name: string, s: Series<Num>, start: int): (line: ChartLine)
    ensures line.name == name && !line.fill && line.tension == 0
    ensures |line.points| == |s.values|
    ensures forall i :: 0 <= i < |s.values| ==> line.points[i] == Point(s.timestamp - start + i * 10, s.values[i])
  {
    ChartLine(name, false, 0, Points(s.timestamp - start, s.values))
  }

  /** One pass of the loop of `one_chart_data`. */
  function LineEntry(name: string, get: string -> Result<Series<Num>>, start: int): Result<ChartLine>
  {
    match get(name)
    case Err(e) => Err(e)
    case Ok(s) => Ok(LineOf(name, s, start))
  }

  function LineEntries(names: seq<string>, get: string -> Result<Series<Num>>, start: int): seq<Result<ChartLine>>
  {
    seq(|names|, i requires 0 <= i < |names| => LineEntry(names[i], get, start))
  }

  /** `one_chart_data(names, get)`: a line per name in sorted order. */
  function ChartOf(names: set<string>, get: string -> Result<Series<Num>>, start: int): Result<seq<ChartLine>>
  {
    Collect(LineEntries(SortedNames(names), get, start))
  }

  /** `lambda name: self.mean[name]`. */
  function MeanSeries(mean: map<string, Series<Num>>): string -> Result<Series<Num>>
  {
    name => if name in mean then Ok(mean[name]) else Err(KeyError)
  }

  /** The rate lambdas of `charts`: the count series stamped as it is, its
      counts divided by ten. */
  function RateSeries(count: map<string, Series<int>>): string -> Result<Series<Num>>
  {
    name => if name in count then Ok(Series(count[name].timestamp, Rates(count[name].values))) else Err(KeyError)
  }

  /** The three charts `charts` fills. */
  datatype Charts = Charts(transactionsMean: seq<ChartLine>, transactionsRate: seq<ChartLine>, httpRate: seq<ChartLine>)

  function ChartsOf(g: Groups, start: int, count: map<string, Series<int>>, mean: map<string, Series<Num>>): Result<Charts>
  {
    match ChartOf(g.transaction, MeanSeries(mean), start)
    case Err(e) => Err(e)
    case Ok(m) =>
      match ChartOf(g.transaction, RateSeries(count), start)
      case Err(e) => Err(e)
      case Ok(r) =>
        match ChartOf(g.http, RateSeries(count), start)
        case Err(e) => Err(e)
        case Ok(h) => Ok(Charts(m, r, h))
  }

  // Properties of the tables

  /** The mean rate over all periods is the total count over ten seconds a
      period. */
  lemma {:induction false} SumRates(counts: seq<int>)
    ensures Sum(Rates(counts)) == Total(counts) as real / 10.0
    decreases |counts|
  {
    if counts != [] {
      var init := counts[..|counts| - 1];
      SumRates(init);
      assert Rates(counts)[..|counts| - 1] == Rates(init);
    }
  }

  /** The transaction statistics, spelled out: the means of the periods
      with a count, the max and min of them, and the rates. */
  lemma TransactionStatsUnfold(means: seq<Num>, counts: seq<int>)
    requires TransactionStatsOf(means, counts).Ok?
    ensures var st := TransactionStatsOf(means, counts).value;
      var values := ValuesWithoutZero(means, counts);
      var rates := Rates(counts);
      |values| > 0 && |rates| > 0
      && st == TransactionStats(Max(values).value, Min(values).value, Sum(values) / |values| as real,
                                Max(rates).value, Sum(rates) / |rates| as real, Total(counts))
  {
  }

  /** The means of a transaction row: the highest and lowest are means of
      periods with a count and bound all of them, and the mean lies between
      them. */
  lemma TransactionMeans(means: seq<Num>, counts: seq<int>)
    requires TransactionStatsOf(means, counts).Ok?
    ensures var st := TransactionStatsOf(means, counts).value;
      var values := ValuesWithoutZero(means, counts);
      st.highest in values && st.lowest in values
      && (forall v :: v in values ==> ToReal(st.lowest) <= ToReal(v) <= ToReal(st.highest))
      && ToReal(st.lowest) <= st.mean <= ToReal(st.highest)
  {
    TransactionStatsUnfold(means, counts);
    MeanBetween(ValuesWithoutZero(means, counts));
  }

  /** The sum of the values at the given positions. */
  function SumAt(xs: seq<Num>, ix: seq<nat>): real
    requires forall j :: 0 <= j < |ix| ==> ix[j] < |xs|
    decreases |ix|
  {
    if ix == [] then 0.0 else SumAt(xs, ix[..|ix| - 1]) + ToReal(xs[ix[|ix| - 1]])
  }

  lemma {:induction false} SumSelected(vs: seq<Num>, xs: seq<Num>, ix: seq<nat>)
    requires |vs| == |ix| && forall j :: 0 <= j < |ix| ==> ix[j] < |xs| && vs[j] == xs[ix[j]]
    ensures Sum(vs) == SumAt(xs, ix)
    decreases |ix|
  {
    if ix != [] {
      var n := |ix| - 1;
      SumSelected(vs[..n], xs, ix[..n]);
    }
  }

  /** The mean of a transaction row is the sum of the 10-second means of
      the periods that counted something, divided by how many such periods
      there are: each counted period weighs once, in order, repetitions
      included. */
  lemma TransactionMeanOfCounted(means: seq<Num>, counts: seq<int>)
    requires TransactionStatsOf(means, counts).Ok?
    ensures var st := TransactionStatsOf(means, counts).value;
      var ix := CountedPeriods(counts[..Shorter(means, counts)]);
      |ix| > 0 && (forall j :: 0 <= j < |ix| ==> ix[j] < |means| && counts[ix[j]] > 0)
      && st.mean == SumAt(means, ix) / |ix| as real
  {
    TransactionMean(means, counts);
    var ix := CountedPeriods(counts[..Shorter(means, counts)]);
    ValuesWithoutZeroSelects(means, counts);
    CountedPrefix(counts, Shorter(means, counts));
    MeanOverCounted(TransactionStatsOf(means, counts).value.mean, ValuesWithoutZero(means, counts), means, ix);
  }

  lemma TransactionMean(means: seq<Num>, counts: seq<int>)
    requires TransactionStatsOf(means, counts).Ok?
    ensures var values := ValuesWithoutZero(means, counts);
      |values| > 0 && TransactionStatsOf(means, counts).value.mean == Sum(values) / |values| as real
  {
    TransactionStatsUnfold(means, counts);
  }

  /** The counted periods among the first `n` are periods of `counts`. */
  lemma CountedPrefix(counts: seq<int>, n: nat)
    requires n <= |counts|
    ensures var ix := CountedPeriods(counts[..n]);
      forall j :: 0 <= j < |ix| ==> ix[j] < n && counts[ix[j]] > 0
  {
    var cs := counts[..n];
    var ix := CountedPeriods(cs);
    forall j | 0 <= j < |ix| ensures ix[j] < n && counts[ix[j]] > 0 {
      assert ix[j] < |cs| && cs[ix[j]] > 0;
    }
  }

  lemma MeanOverCounted(m: real, values: seq<Num>, means: seq<Num>, ix: seq<nat>)
    requires |values| == |ix| > 0 && m == Sum(values) / |values| as real
    requires forall j :: 0 <= j < |ix| ==> ix[j] < |means| && values[j] == means[ix[j]]
    ensures m == SumAt(means, ix) / |ix| as real
  {
    SumSelected(values, means, ix);
  }

  /** The rates of a transaction row: the highest bounds every period's
      count over ten seconds, and the mean rate is the total count per
      ten-second period; the total is the sum of the counts. */
  lemma TransactionRates(means: seq<Num>, counts: seq<int>)
    requires TransactionStatsOf(means, counts).Ok?
    ensures var st := TransactionStatsOf(means, counts).value;
      st.total == Total(counts)
      && st.highestRate in Rates(counts)
      && (forall i :: 0 <= i < |counts| ==> counts[i] as real / 10.0 <= ToReal(st.highestRate))
      && |counts| > 0 && st.meanRate == Total(counts) as real / 10.0 / |counts| as real
  {
    TransactionStatsUnfold(means, counts);
    HighestRate(counts);
    MeanRate(counts);
  }

  lemma HighestRate(counts: seq<int>)
    requires |counts| > 0
    ensures var h := Max(Rates(counts)).value;
      h in Rates(counts) && forall i :: 0 <= i < |counts| ==> counts[i] as real / 10.0 <= ToReal(h)
  {
    var rates := Rates(counts);
    assert forall i :: 0 <= i < |counts| ==> rates[i] in rates;
  }

  lemma MeanRate(counts: seq<int>)
    requires |counts| > 0
    ensures Sum(Rates(counts)) / |Rates(counts)| as real == Total(counts) as real / 10.0 / |counts| as real
  {
    SumRates(counts);
  }

  /** The numbers of an HTTP row: the highest rate is the rate of a period
      that saw the code and bounds every such period, and the mean rate is
      the total per second of the test. */
  lemma HttpStatsFacts(counts: seq<int>, duration: int)
    requires HttpStatsOf(counts, duration).Ok?
    ensures var st := HttpStatsOf(counts, duration).value;
      st.total == Total(counts)
      && (exists i :: 0 <= i < |counts| && counts[i] > 0 && st.highestRate == Float(counts[i] as real / 10.0))
      && (forall i :: 0 <= i < |counts| && counts[i] > 0 ==> counts[i] as real / 10.0 <= ToReal(st.highestRate))
      && st.meanRate == PerSecond(st.total, duration)
  {
    HttpStatsUnfold(counts, duration);
    HighestPositiveRate(counts);
  }

  /** With no negative count, as Tsung's counters never are, the busiest
      second of a transaction row sees at most a tenth of its total. */
  lemma TransactionRateWithinTotal(means: seq<Num>, counts: seq<int>)
    requires TransactionStatsOf(means, counts).Ok?
    requires forall i :: 0 <= i < |counts| ==> counts[i] >= 0
    ensures var st := TransactionStatsOf(means, counts).value;
      st.total >= 0 && ToReal(st.highestRate) <= st.total as real / 10.0
  {
    TransactionRates(means, counts);
    var st := TransactionStatsOf(means, counts).value;
    var rates := Rates(counts);
    var i :| 0 <= i < |rates| && rates[i] == st.highestRate;
    assert forall x :: x in counts ==> x >= 0;
    TotalBounds(counts, i);
  }

  /** With no negative count, the busiest second of an HTTP row sees at
      most a tenth of its total. */
  lemma HttpRateWithinTotal(counts: seq<int>, duration: int)
    requires HttpStatsOf(counts, duration).Ok?
    requires forall i :: 0 <= i < |counts| ==> counts[i] >= 0
    ensures var st := HttpStatsOf(counts, duration).value;
      st.total >= 0 && ToReal(st.highestRate) <= st.total as real / 10.0
  {
    HttpStatsFacts(counts, duration);
    var st := HttpStatsOf(counts, duration).value;
    var i :| 0 <= i < |counts| && counts[i] > 0 && st.highestRate == Float(counts[i] as real / 10.0);
    assert forall x :: x in counts ==> x >= 0;
    TotalBounds(counts, i);
  }

  lemma HttpStatsUnfold(counts: seq<int>, duration: int)
    requires HttpStatsOf(counts, duration).Ok?
    ensures PositiveRates(counts) != [] && duration != 0
    ensures HttpStatsOf(counts, duration).value
      == HttpStats(Max(PositiveRates(counts)).value, PerSecond(Total(counts), duration), Total(counts))
  {
  }

  lemma HighestPositiveRate(counts: seq<int>)
    requires PositiveRates(counts) != []
    ensures var h := Max(PositiveRates(counts)).value;
      (exists i :: 0 <= i < |counts| && counts[i] > 0 && h == Float(counts[i] as real / 10.0))
      && (forall i :: 0 <= i < |counts| && counts[i] > 0 ==> counts[i] as real / 10.0 <= ToReal(h))
  {
    var rates := PositiveRates(counts);
    assert forall i :: 0 <= i < |counts| && counts[i] > 0 ==> Float(counts[i] as real / 10.0) in rates;
  }

  /** Entries made one per sorted name all succeed exactly when the entry of
      every name does. */
  lemma AllOkOverNames<T>(names: set<string>, es: seq<Result<T>>, f: string -> Result<T>)
    requires |es| == |SortedNames(names)|
    requires forall i :: 0 <= i < |es| ==> es[i] == f(SortedNames(names)[i])
    ensures AllOk(es) <==> forall n :: n in names ==> f(n).Ok?
  {
    var ns := SortedNames(names);
    if !AllOk(es) {
      var i :| 0 <= i < |es| && es[i].Err?;
      assert ns[i] in names;
    } else {
      forall n | n in names ensures f(n).Ok? {
        var i :| 0 <= i < |ns| && ns[i] == n;
        assert es[i].Ok?;
      }
    }
  }

  lemma TransactionEntriesOk(names: set<string>, mean: map<string, Series<Num>>, count: map<string, Series<int>>)
    ensures AllOk(TransactionEntries(SortedNames(names), mean, count))
      <==> forall n :: n in names ==> TransactionEntry(n, mean, count).Ok?
  {
    var ns := SortedNames(names);
    var es := TransactionEntries(ns, mean, count);
    forall i | 0 <= i < |es| ensures es[i] == TransactionEntry(ns[i], mean, count) {
      TransactionEntriesAt(ns, mean, count, i);
    }
    AllOkOverNames(names, es, n => TransactionEntry(n, mean, count));
  }

  lemma HttpEntriesOk(names: set<string>, count: map<string, Series<int>>, duration: int)
    ensures AllOk(HttpEntries(SortedNames(names), count, duration))
      <==> forall n :: n in names ==> HttpEntry(n, count, duration).Ok?
  {
    var ns := SortedNames(names);
    var es := HttpEntries(ns, count, duration);
    forall i | 0 <= i < |es| ensures es[i] == HttpEntry(ns[i], count, duration) {
      HttpEntriesAt(ns, count, duration, i);
    }
    AllOkOverNames(names, es, n => HttpEntry(n, count, duration));
  }

  /** `tables` succeeds exactly when the last block is stamped and every
      transaction and HTTP code gets its row. */
  lemma TablesOfOk(blocks: seq<Block>, start: int, g: Groups, count: map<string, Series<int>>, mean: map<string, Series<Num>>)
    ensures var d := Duration(blocks, start);
      TablesOf(blocks, start, g, count, mean).Ok? <==>
        (d.Ok?
         && (forall n :: n in g.transaction ==> TransactionEntry(n, mean, count).Ok?)
         && (forall n :: n in g.http ==> HttpEntry(n, count, d.value).Ok?))
  {
    var d := Duration(blocks, start);
    if d.Ok? {
      TransactionEntriesOk(g.transaction, mean, count);
      HttpEntriesOk(g.http, count, d.value);
    }
  }

  /** The rows of `tables` follow the sorted names one for one. */
  lemma TablesOfRows(blocks: seq<Block>, start: int, g: Groups, count: map<string, Series<int>>, mean: map<string, Series<Num>>, duration: int)
    requires TablesOf(blocks, start, g, count, mean).Ok? && Duration(blocks, start) == Ok(duration)
    ensures var t := TablesOf(blocks, start, g, count, mean).value;
      var ts, hs := SortedNames(g.transaction), SortedNames(g.http);
      |t.transaction| == |ts| && |t.http| == |hs|
      && (forall i :: 0 <= i < |ts| ==> TransactionEntry(ts[i], mean, count) == Ok(t.transaction[i]))
      && (forall i :: 0 <= i < |hs| ==> HttpEntry(hs[i], count, duration) == Ok(t.http[i]))
  {
    var ts, hs := SortedNames(g.transaction), SortedNames(g.http);
    var t := TablesOf(blocks, start, g, count, mean).value;
    var tr, hr := Collect(TransactionEntries(ts, mean, count)), Collect(HttpEntries(hs, count, duration));
    assert tr.Ok? && hr.Ok? && t == Tables(tr.value, hr.value);
    forall i | 0 <= i < |ts| ensures TransactionEntries(ts, mean, count)[i] == TransactionEntry(ts[i], mean, count) {
      TransactionEntriesAt(ts, mean, count, i);
    }
    forall i | 0 <= i < |hs| ensures HttpEntries(hs, count, duration)[i] == HttpEntry(hs[i], count, duration) {
      HttpEntriesAt(hs, count, duration, i);
    }
  }

  // Properties of the charts

  /** `one_chart_data` succeeds exactly when `get` does for every name, and
      then draws the names' lines in sorted order. */
  lemma ChartOfLines(names: set<string>, get: string -> Result<Series<Num>>, start: int)
    ensures var r := ChartOf(names, get, start);
      (r.Ok? <==> forall n :: n in names ==> get(n).Ok?)
      && (r.Ok? ==>
            var ns := SortedNames(names);
            |r.value| == |ns| && forall i :: 0 <= i < |ns| ==> r.value[i] == LineOf(ns[i], get(ns[i]).value, start))
  {
    var ns := SortedNames(names);
    var es := LineEntries(ns, get, start);
    assert AllOk(es) <==> forall n :: n in names ==> get(n).Ok? by {
      if !AllOk(es) {
        var i :| 0 <= i < |es| && es[i].Err?;
        assert ns[i] in names;
      }
      if AllOk(es) {
        forall n | n in names ensures get(n).Ok? {
          var i :| 0 <= i < |ns| && ns[i] == n;
          assert es[i].Ok?;
        }
      }
    }
  }

  /** The mean chart succeeds exactly when every name has a mean series,
      and then plots each series as it is. */
  lemma MeanChartLines(names: set<string>, mean: map<string, Series<Num>>, start: int)
    ensures var r := ChartOf(names, MeanSeries(mean), start);
      (r.Ok? <==> names <= mean.Keys)
      && (r.Ok? ==>
            var ns := SortedNames(names);
            |r.value| == |ns| && forall i :: 0 <= i < |ns| ==> r.value[i] == LineOf(ns[i], mean[ns[i]], start))
  {
    ChartOfLines(names, MeanSeries(mean), start);
  }

  /** A rate chart succeeds exactly when every name has a count series, and
      then plots each count divided by ten, from the series' first block. */
  lemma RateChartLines(names: set<string>, count: map<string, Series<int>>, start: int)
    ensures var r := ChartOf(names, RateSeries(count), start);
      (r.Ok? <==> names <= count.Keys)
      && (r.Ok? ==>
            var ns := SortedNames(names);
            |r.value| == |ns|
            && forall i :: 0 <= i < |ns| ==>
                 r.value[i] == LineOf(ns[i], Series(count[ns[i]].timestamp, Rates(count[ns[i]].values)), start))
  {
    ChartOfLines(names, RateSeries(count), start);
  }

  /** `charts` succeeds exactly when every transaction has a mean and a
      count series and every HTTP code a count series. */
  lemma ChartsOfOk(g: Groups, start: int, count: map<string, Series<int>>, mean: map<string, Series<Num>>)
    ensures ChartsOf(g, start, count, mean).Ok? <==>
      g.transaction <= mean.Keys && g.transaction <= count.Keys && g.http <= count.Keys
  {
    MeanChartLines(g.transaction, mean, start);
    RateChartLines(g.transaction, count, start);
    RateChartLines(g.http, count, start);
  }
}
