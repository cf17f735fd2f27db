/** The `Tsung` class of tsung_data.py: it reads a tsung.log into blocks,
    groups the statistic names, builds the count and mean series, and
    derives the report tables and charts from them. Every method is proved
    against the functions of TsungLog, TsungNames, TsungSeries and
    TsungReport. */
module TsungData {
  import opened Wrappers
  import opened Strings
  import opened Numerals
  import opened Utils
  import opened Builtins
  import opened TsungLog
  import opened TsungNames
  import opened TsungSeries
  import opened TsungReport

  // How the loops of the class advance the folds that specify them.

  lemma ScanOneMore(es: seq<LineEffect>, i: nat)
    requires i < |es|
    ensures var s := ScanEffects(es[..i]);
      ScanEffects(es[..i + 1]) == if s.failure.Some? then s else Step(s, es[i])
  {
    assert es[..i + 1][..i] == es[..i];
  }

  lemma {:induction false} ScanStops(es: seq<LineEffect>, i: nat)
    requires i <= |es| && ScanEffects(es[..i]).failure.Some?
    ensures ScanEffects(es) == ScanEffects(es[..i])
    decreases |es| - i
  {
    if i == |es| {
      assert es[..i] == es;
    } else {
      ScanOneMore(es, i);
      ScanStops(es, i + 1);
    }
  }

  lemma GroupsOfOneMore(g: Groups, blocks: seq<Block>, i: nat)
    requires i < |blocks|
    ensures GroupsOf(g, blocks[..i + 1]) == Added(GroupsOf(g, blocks[..i]), KeysOf(blocks[i]))
  {
    assert blocks[..i + 1][..i] == blocks[..i];
  }

  lemma VisitBlocksOneMore(count: map<string, Series<int>>, mean: map<string, Series<Num>>, name: string, blocks: seq<Block>, k: nat)
    requires k < |blocks|
    ensures var r := VisitBlocks(count, mean, name, blocks[..k]);
      VisitBlocks(count, mean, name, blocks[..k + 1]) == if r.failure.Some? then r else Visit(r.count, r.mean, name, blocks[k])
  {
    assert blocks[..k + 1][..k] == blocks[..k];
  }

  lemma {:induction false} VisitBlocksStops(count: map<string, Series<int>>, mean: map<string, Series<Num>>, name: string, blocks: seq<Block>, k: nat)
    requires k <= |blocks| && VisitBlocks(count, mean, name, blocks[..k]).failure.Some?
    ensures VisitBlocks(count, mean, name, blocks) == VisitBlocks(count, mean, name, blocks[..k])
    decreases |blocks| - k
  {
    if k == |blocks| {
      assert blocks[..k] == blocks;
    } else {
      VisitBlocksOneMore(count, mean, name, blocks, k);
      VisitBlocksStops(count, mean, name, blocks, k + 1);
    }
  }

  lemma VisitNamesOneMore(count: map<string, Series<int>>, mean: map<string, Series<Num>>, names: seq<string>, blocks: seq<Block>, j: nat)
    requires j < |names|
    ensures var r := VisitNames(count, mean, names[..j], blocks);
      VisitNames(count, mean, names[..j + 1], blocks) == if r.failure.Some? then r else VisitBlocks(r.count, r.mean, names[j], blocks)
  {
    assert names[..j + 1][..j] == names[..j];
  }

  lemma {:induction false} VisitNamesStops(count: map<string, Series<int>>, mean: map<string, Series<Num>>, names: seq<string>, blocks: seq<Block>, j: nat)
    requires j <= |names| && VisitNames(count, mean, names[..j], blocks).failure.Some?
    ensures VisitNames(count, mean, names, blocks) == VisitNames(count, mean, names[..j], blocks)
    decreases |names| - j
  {
    if j == |names| {
      assert names[..j] == names;
    } else {
      VisitNamesOneMore(count, mean, names, blocks, j);
      VisitNamesStops(count, mean, names, blocks, j + 1);
    }
  }

  class Tsung {
    /** `int(self.data[0]['timestamp'])`: the start of the test. */
    var startTimestamp: int
    /** The blocks of the log, one per statistics dump. */
    var data: seq<Block>
    /** The discovered groups of `self.names`; the fixed groups are the
        constants of TsungNames. */
    var names: Groups
    /** The count series and the mean series, by name. */
    var count: map<string, Series<int>>
    var mean: map<string, Series<Num>>

    /** The class invariant: every discovered name sits in the group its
        form selects, so the groups share no name. */
    predicate Valid()
      reads this
    {
      Classified(names)
    }

    constructor ()
      ensures Valid()
      ensures startTimestamp == 0 && data == [] && names == NoGroups
      ensures count == map[] && mean == map[]
    {
      startTimestamp := 0;
      data := [];
      names := NoGroups;
      count := map[];
      mean := map[];
    }

    /** `parse`: the lines of tsung.log, read one by one. The blocks read
        are appended to `data`; an exception leaves the blocks appended
        before it. */
    method Parse(lines: seq<string>) returns (outcome: Outcome)
      modifies this`data
      ensures data == old(data) + ParseLog(lines).blocks
      ensures outcome == ParseLog(lines).outcome
    {
      ghost var es := Effects(lines);
      var current := EmptyBlock;
      var i := 0;
      while i < |lines|
        invariant i <= |lines|
        invariant ScanEffects(es[..i]) == Scan(ScanEffects(es[..i]).done, current, None)
        invariant data == old(data) + ScanEffects(es[..i]).done
      {
        ScanOneMore(es, i);
        var effect := ReadLineAt(lines, i);
        var failure;
        current, failure := ApplyLine(ScanEffects(es[..i]), old(data), current, effect);
        if failure.Some? {
          ScanStops(es, i + 1);
          return Raised(failure.value);
        }
        i := i + 1;
      }
      assert es[..i] == es;
      data := data + [current];
      outcome := Done;
    }

    /** The body of the loop of `parse` once the line is read: a header
        hands over the current block if it is not empty and opens the next,
        a record is stored in the current block under its name. */
    method ApplyLine(ghost s: Scan, ghost before: seq<Block>, current: Block, effect: LineEffect) returns (next: Block, failure: Option<Failure>)
      requires s.failure.None? && s.current == current && data == before + s.done
      modifies this`data
      ensures next == Step(s, effect).current && failure == Step(s, effect).failure
      ensures data == before + Step(s, effect).done
    {
      next := current;
      failure := None;
      match effect {
        case Skip =>
        case Header(t) =>
          if NonEmpty(next) {
            data := data + [next];
          }
          if t.None? {
            failure := Some(ValueError);
          } else {
            next := Block(t, map[]);
          }
        case Store(d) =>
          next := next.(samples := next.samples[d.name := d]);
        case Fail(e) =>
          failure := Some(e);
      }
    }

    /** Line `i` of the log, read as `parse` reads it. */
    static method ReadLineAt(lines: seq<string>, i: nat) returns (effect: LineEffect)
      requires i < |lines|
      ensures effect == Effects(lines)[i]
    {
      effect := ReadLine(lines[i]);
      EffectsAt(lines, i);
    }

    /** The body of the loop of `parse` up to what it does to the blocks:
        the line is stripped, then recognised as blank, a dump header, a
        transaction line, an HTTP code line or another statistic. */
    static method ReadLine(raw: string) returns (effect: LineEffect)
      ensures effect == Interpret(raw)
    {
      var line := Strip(raw);
      if line == "" {
        return Skip;
      }
      if StartsWith(line, PrefixHeader) {
        return Header(ParseInt(Drop(line, PrefixHeaderLength)));
      }
      var rest := Drop(line, PrefixDataSkip);
      var words := Split(rest);
      if StartsWith(rest, PrefixTransaction) {
        PrefixTransactionWord();
        FirstWordKeepsPrefix(rest, PrefixTransaction);
        var values := Numbers(words[1..]);
        if values.None? {
          return Fail(ValueError);
        }
        var vs := values.value;
        if |vs| != 7 {
          return Fail(TypeError);
        }
        return Store(Data(words[0], vs[0], vs[1], vs[2], vs[3], vs[4], vs[5], vs[6]));
      }
      if words == [] {
        return Fail(IndexError);
      }
      var name := words[0];
      if !IsDigits(name) {
        return Skip;
      }
      if |words| != 3 {
        return Fail(TypeError);
      }
      effect := Store(Counter(words[0], words[1], words[2]));
    }

    /** `add_name_by_category`: the name joins the group its form selects,
        if any. */
    method AddNameByCategory(name: string)
      requires Valid()
      modifies this`names
      ensures Valid()
      ensures names == AddName(old(names), name)
    {
      AddNameClassified(names, name);
      if name == "timestamp" {
        return;
      }
      if StartsWith(name, PrefixTransaction) {
        names := names.(transaction := names.transaction + {name});
      } else if IsDigits(name) {
        names := names.(http := names.http + {name});
      } else if StartsWith(name, PrefixError) {
        names := names.(error := names.error + {name});
      } else if Contains(name, "match") {
        names := names.(matches := names.matches + {name});
      }
    }

    /** The first loop of `process`: every key of every block goes through
        `add_name_by_category`. */
    method CollectNames()
      requires Valid()
      modifies this`names
      ensures Valid()
      ensures names == GroupsOf(old(names), data)
    {
      var i := 0;
      while i < |data|
        invariant i <= |data| && Valid()
        invariant names == GroupsOf(old(names), data[..i])
      {
        GroupsOfOneMore(old(names), data, i);
        AddKeys(KeysOf(data[i]));
        i := i + 1;
      }
      assert data[..i] == data;
    }

    /** The inner loop of the first loop of `process`: the keys of one
        block, in any order. */
    method AddKeys(keys: set<string>)
      requires Valid()
      modifies this`names
      ensures Valid()
      ensures names == Added(old(names), keys)
    {
      var rest := keys;
      assert Added(names, {}) == names;
      while rest != {}
        invariant rest <= keys && names == Added(old(names), keys - rest) && Valid()
        decreases rest
      {
        var name :| name in rest;
        AddedOneMore(old(names), keys - rest, name);
        AddNameByCategory(name);
        assert keys - (rest - {name}) == (keys - rest) + {name};
        rest := rest - {name};
      }
      assert keys - rest == keys;
    }

    /** The walk of `process` over one name: the blocks in order, until
        one of them raises. */
    method VisitName(name: string) returns (failure: Option<Failure>)
      modifies this`count, this`mean
      ensures Run(count, mean, failure) == VisitBlocks(old(count), old(mean), name, data)
    {
      var k := 0;
      while k < |data|
        invariant k <= |data|
        invariant Run(count, mean, None) == VisitBlocks(old(count), old(mean), name, data[..k])
      {
        VisitBlocksOneMore(old(count), old(mean), name, data, k);
        failure := VisitBlock(name, data[k]);
        if failure.Some? {
          VisitBlocksStops(old(count), old(mean), name, data, k + 1);
          return;
        }
        k := k + 1;
      }
      assert data[..k] == data;
      failure := None;
    }

    /** One pass of the inner loop of `process`: the block's timestamp is
        read, then the sample of `name`, if the block has one, opens the
        series it lacks and extends them. */
    method VisitBlock(name: string, block: Block) returns (failure: Option<Failure>)
      modifies this`count, this`mean
      ensures Run(count, mean, failure) == Visit(old(count), old(mean), name, block)
    {
      if block.timestamp.None? {
        return Some(KeyError);
      }
      var timestamp := block.timestamp.value;
      if name !in block.samples {
        return None;
      }
      var d := block.samples[name];
      if name !in count {
        count := count[name := Series(timestamp, [])];
      }
      var c := CountOf(d);
      if c.Err? {
        return Some(c.error);
      }
      count := count[name := count[name].(values := count[name].values + [c.value])];
      if d.Data? {
        if name !in mean {
          mean := mean[name := Series(timestamp, [])];
        }
        mean := mean[name := mean[name].(values := mean[name].values + [d.mean10sec])];
      }
      failure := None;
    }

    /** `process`: the names are grouped and the ignored transactions
        dropped, the start of the test is read from the first block, and
        every name of `AllNames` is walked over the blocks. */
    method Process() returns (outcome: Outcome)
      requires Valid()
      modifies this`names, this`startTimestamp, this`count, this`mean
      ensures Valid()
      ensures names == WithoutIgnored(GroupsOf(old(names), data))
      ensures var p := ProcessOf(data, names, old(startTimestamp), old(count), old(mean));
        startTimestamp == p.start && count == p.count && mean == p.mean && outcome == p.outcome
    {
      CollectNames();
      names := names.(transaction := names.transaction - IgnoreTransactions);
      outcome := WalkNames();
    }

    /** `process` after the grouping: the start of the test is read from
        the first block, then every name of `AllNames` is walked. */
    method WalkNames() returns (outcome: Outcome)
      modifies this`startTimestamp, this`count, this`mean
      ensures var p := ProcessOf(data, names, old(startTimestamp), old(count), old(mean));
        startTimestamp == p.start && count == p.count && mean == p.mean && outcome == p.outcome
    {
      if |data| == 0 {
        return Raised(IndexError);
      }
      if data[0].timestamp.None? {
        return Raised(KeyError);
      }
      startTimestamp := data[0].timestamp.value;
      var failure := VisitNamesInOrder(AllNames(names));
      outcome := if failure.Some? then Raised(failure.value) else Done;
    }

    /** The second loop of `process`: each name walked over the blocks,
        until one of them raises. */
    method VisitNamesInOrder(allNames: seq<string>) returns (failure: Option<Failure>)
      modifies this`count, this`mean
      ensures Run(count, mean, failure) == VisitNames(old(count), old(mean), allNames, data)
    {
      var j := 0;
      while j < |allNames|
        invariant j <= |allNames|
        invariant Run(count, mean, None) == VisitNames(old(count), old(mean), allNames[..j], data)
      {
        VisitNamesOneMore(old(count), old(mean), allNames, data, j);
        failure := VisitName(allNames[j]);
        if failure.Some? {
          VisitNamesStops(old(count), old(mean), allNames, data, j + 1);
          return;
        }
        j := j + 1;
      }
      assert allNames[..j] == allNames;
      failure := None;
    }

    /** `tables`: the transaction and HTTP tables, or the exception that
        stops them. */
    method Tables() returns (r: Result<Tables>)
      ensures r == TablesOf(data, startTimestamp, names, count, mean)
    {
      if |data| == 0 {
        return Err(IndexError);
      }
      var last := data[|data| - 1];
      if last.timestamp.None? {
        return Err(KeyError);
      }
      var totalDuration := last.timestamp.value - startTimestamp;
      assert Duration(data, startTimestamp) == Ok(totalDuration);
      var transaction := TransactionTable();
      if transaction.Err? {
        return Err(transaction.error);
      }
      var http := HttpTable(totalDuration);
      if http.Err? {
        return Err(http.error);
      }
      r := Ok(TsungReport.Tables(transaction.value, http.value));
    }

    /** The transaction loop of `tables`: a row per transaction, in sorted
        order. */
    method TransactionTable() returns (r: Result<seq<TransactionRow>>)
      ensures r == Collect(TransactionEntries(SortedNames(names.transaction), mean, count))
    {
      var ts := SortedNames(names.transaction);
      ghost var entries := TransactionEntries(ts, mean, count);
      var d: seq<TransactionRow> := [];
      var i := 0;
      while i < |ts|
        invariant i <= |ts| && Collect(entries[..i]) == Ok(d)
      {
        CollectOneMore(entries, i);
        var row := TransactionRowAt(ts, i);
        if row.Err? {
          CollectStopsAt(entries, i);
          return Err(row.error);
        }
        d := d + [row.value];
        i := i + 1;
      }
      assert entries[..i] == entries;
      r := Ok(d);
    }

    /** The HTTP loop of `tables`: a row per status code, in sorted order. */
    method HttpTable(totalDuration: int) returns (r: Result<seq<HttpRow>>)
      ensures r == Collect(HttpEntries(SortedNames(names.http), count, totalDuration))
    {
      var hs := SortedNames(names.http);
      ghost var entries := HttpEntries(hs, count, totalDuration);
      var d: seq<HttpRow> := [];
      var i := 0;
      while i < |hs|
        invariant i <= |hs| && Collect(entries[..i]) == Ok(d)
      {
        CollectOneMore(entries, i);
        var row := HttpRowAt(hs, i, totalDuration);
        if row.Err? {
          CollectStopsAt(entries, i);
          return Err(row.error);
        }
        d := d + [row.value];
        i := i + 1;
      }
      assert entries[..i] == entries;
      r := Ok(d);
    }

    /** One pass of the transaction loop of `tables`: the row of the
        `i`-th name. */
    method TransactionRowAt(ts: seq<string>, i: nat) returns (row: Result<TransactionRow>)
      requires i < |ts|
      ensures row == TransactionEntries(ts, mean, count)[i]
    {
      TransactionEntriesAt(ts, mean, count, i);
      var name := ts[i];
      if name !in mean || name !in count {
        return Err(KeyError);
      }
      var counts := count[name].values;
      var values := ValuesWithoutZero(mean[name].values, counts);
      var highestMean := Max(values);
      if highestMean.Err? {
        return Err(highestMean.error);
      }
      assert values[0] in values;
      var lowestMean := Min(values).value;
      var m := Sum(values) / |values| as real;
      var total := Total(counts);
      var rates := Rates(counts);
      var highestRate := Max(rates).value;
      var meanRate := Sum(rates) / |rates| as real;
      row := Ok(TransactionRow(name, StrSec(highestMean.value), StrSec(lowestMean),
                               StrNumber(highestRate, 2, "/sec"), StrNumber(Float(meanRate), 2, "/sec"),
                               StrSec(Float(m)), total));
    }

    /** One pass of the HTTP loop of `tables`: the row of the `i`-th
        status code. */
    method HttpRowAt(hs: seq<string>, i: nat, totalDuration: int) returns (row: Result<HttpRow>)
      requires i < |hs|
      ensures row == HttpEntries(hs, count, totalDuration)[i]
    {
      HttpEntriesAt(hs, count, totalDuration, i);
      var name := hs[i];
      if name !in count {
        return Err(KeyError);
      }
      var counts := count[name].values;
      var total := Total(counts);
      var rateWithoutZero := PositiveRates(counts);
      var highestRate := Max(rateWithoutZero);
      if highestRate.Err? {
        return Err(highestRate.error);
      }
      if totalDuration == 0 {
        return Err(ZeroDivisionError);
      }
      var meanRate := PerSecond(total, totalDuration);
      row := Ok(HttpRow(name, StrNumber(highestRate.value, 2, "/sec"), StrNumber(Float(meanRate), 2, "/sec"), total));
    }

    /** `one_chart_data`: a line per name, in sorted order, of the series
        `get` gives for it. */
    method OneChartData(chartNames: set<string>, get: string -> Result<Series<Num>>) returns (r: Result<seq<ChartLine>>)
      ensures r == ChartOf(chartNames, get, startTimestamp)
    {
      var ns := SortedNames(chartNames);
      ghost var entries := LineEntries(ns, get, startTimestamp);
      var linesData: seq<ChartLine> := [];
      var i := 0;
      while i < |ns|
        invariant i <= |ns| && Collect(entries[..i]) == Ok(linesData)
      {
        CollectOneMore(entries, i);
        var series := get(ns[i]);
        if series.Err? {
          CollectStopsAt(entries, i);
          return Err(series.error);
        }
        var y := series.value.values;
        var x0 := series.value.timestamp - startTimestamp;
        var points := PointsOfPairs(Zip(Range(x0, x0 + |y| * 10, 10), y));
        linesData := linesData + [ChartLine(ns[i], false, 0, points)];
        i := i + 1;
      }
      assert entries[..i] == entries;
      r := Ok(linesData);
    }

    /** `charts`: transaction means, transaction rates and HTTP code rates. */
    method Charts() returns (r: Result<Charts>)
      ensures r == ChartsOf(names, startTimestamp, count, mean)
    {
      var transactionsMean := OneChartData(names.transaction, MeanSeries(mean));
      if transactionsMean.Err? {
        return Err(transactionsMean.error);
      }
      var transactionsRate := OneChartData(names.transaction, RateSeries(count));
      if transactionsRate.Err? {
        return Err(transactionsRate.error);
      }
      var httpRate := OneChartData(names.http, RateSeries(count));
      if httpRate.Err? {
        return Err(httpRate.error);
      }
      r := Ok(TsungReport.Charts(transactionsMean.value, transactionsRate.value, httpRate.value));
    }
  }
}
