/** What `process` computes: for every name, the series of 10-second counts
    and means found in the blocks, each stamped with the block it starts in. */
module TsungSeries {
  import opened Wrappers
  import opened Numerals
  import opened Utils
  import opened TsungLog
  import opened TsungNames

  /** `{'timestamp': t, 'data': [...]}`: values of consecutive blocks from
      the block stamped `timestamp` on. */
  datatype Series<T> = Series(timestamp: int, values: seq<T>)

  /** The series maps `count` and `mean` after a run, and the exception that
      stopped it, if any. */
  datatype Run = Run(count: map<string, Series<int>>, mean: map<string, Series<Num>>, failure: Option<Failure>)

  /** `int(d.count_10sec)`: an int as is, a float truncated, and the text of
      an HTTP counter read as an int. */
  function CountOf(s: Sample): (r: Result<int>)
    ensures s.Data? && s.count10sec.Int? ==> r == Ok(s.count10sec.i)
    ensures s.Data? && s.count10sec.Float? ==> r.Ok? && -1.0 < s.count10sec.f - r.value as real < 1.0
    ensures s.Counter? ==> (r.Ok? <==> ParseInt(s.count10secText).Some?)
  {
    match s
    case Data(_, c, _, _, _, _, _, _) =>
      (match c case Int(i) => Ok(i) case Float(f) => Ok(Trunc(f)))
    case Counter(_, text, _) =>
      (match ParseInt(text) case None => Err(ValueError) case Some(i) => Ok(i))
  }

  /** The map with a series for `name`, opened with `timestamp` and no
      values if it had none. */
  function Opened<T>(m: map<string, Series<T>>, name: string, timestamp: int): (r: map<string, Series<T>>)
    ensures name in r && r.Keys == m.Keys + {name}
    ensures name in m ==> r == m
    ensures name !in m ==> r[name] == Series(timestamp, [])
    ensures forall k :: k in m && k != name ==> r[k] == m[k]
  {
    if name in m then m else m[name := Series(timestamp, [])]
  }

  /** The map with `v` appended to the series of `name`. */
  function Appended<T>(m: map<string, Series<T>>, name: string, v: T): (r: map<string, Series<T>>)
    requires name in m
    ensures r.Keys == m.Keys
    ensures r[name] == Series(m[name].timestamp, m[name].values + [v])
    ensures forall k :: k in m && k != name ==> r[k] == m[k]
  {
    m[name := m[name].(values := m[name].values + [v])]
  }

  /** One pass of the inner loop of `process`: the block's timestamp is read
      first, then the sample of `name`, if any, is added. */
  function Visit(count: map<string, Series<int>>, mean: map<string, Series<Num>>, name: string, b: Block): Run
  {
    if b.timestamp.None? then Run(count, mean, Some(KeyError))
    else if name !in b.samples then Run(count, mean, None)
    else
      var s := b.samples[name];
      var c := Opened(count, name, b.timestamp.value);
      match CountOf(s)
      case Err(e) => Run(c, mean, Some(e))
      case Ok(k) =>
        if s.Data? then Run(Appended(c, name, k), Appended(Opened(mean, name, b.timestamp.value), name, s.mean10sec), None)
        else Run(Appended(c, name, k), mean, None)
  }

  /** The inner loop of `process` over the blocks, for one name; it stops at
      the first exception. */
  function VisitBlocks(count: map<string, Series<int>>, mean: map<string, Series<Num>>, name: string, blocks: seq<Block>): Run
    decreases |blocks|
  {
    if blocks == [] then Run(count, mean, None)
    else
      var r := VisitBlocks(count, mean, name, blocks[..|blocks| - 1]);
      if r.failure.Some? then r else Visit(r.count, r.mean, name, blocks[|blocks| - 1])
  }

  /** The outer loop of `process` over the names. */
  function VisitNames(count: map<string, Series<int>>, mean: map<string, Series<Num>>, names: seq<string>, blocks: seq<Block>): Run
    decreases |names|
  {
    if names == [] then Run(count, mean, None)
    else
      var r := VisitNames(count, mean, names[..|names| - 1], blocks);
      if r.failure.Some? then r else VisitBlocks(r.count, r.mean, names[|names| - 1], blocks)
  }

  /** The state `process` leaves: the start timestamp, the series, and how
      it ended. */
  datatype Processed = Processed(start: int, count: map<string, Series<int>>, mean: map<string, Series<Num>>, outcome: Outcome)

  /** `process` once the groups are complete: `data[0]['timestamp']` is read
      (IndexError on no blocks, KeyError on an unstamped first block), then
      every name is walked. */
  function ProcessOf(blocks: seq<Block>, g: Groups, start: int, count: map<string, Series<int>>, mean: map<string, Series<Num>>): Processed
  {
    if blocks == [] then Processed(start, count, mean, Raised(IndexError))
    else if blocks[0].timestamp.None? then Processed(start, count, mean, Raised(KeyError))
    else
      var r := VisitNames(count, mean, AllNames(g), blocks);
      Processed(blocks[0].timestamp.value, r.count, r.mean,
                if r.failure.Some? then Raised(r.failure.value) else Done)
  }

  // The reference definitions: the series a name should get.

  predicate Stamped(blocks: seq<Block>)
  {
    forall i :: 0 <= i < |blocks| ==> blocks[i].timestamp.Some?
  }

  /** Every sample of `name` has a count that `int` accepts. */
  predicate Readable(name: string, blocks: seq<Block>)
  {
    forall i :: 0 <= i < |blocks| && name in blocks[i].samples ==> CountOf(blocks[i].samples[name]).Ok?
  }

  /** The counts of the samples of `name`, block by block. */
  function Counts(name: string, blocks: seq<Block>): seq<int>
    requires Readable(name, blocks)
    decreases |blocks|
  {
    if blocks == [] then []
    else
      var b := blocks[|blocks| - 1];
      Counts(name, blocks[..|blocks| - 1]) + (if name in b.samples then [CountOf(b.samples[name]).value] else [])
  }

  /** The 10-second means of the samples of `name` that have one. */
  function Means(name: string, blocks: seq<Block>): seq<Num>
    decreases |blocks|
  {
    if blocks == [] then []
    else
      var b := blocks[|blocks| - 1];
      Means(name, blocks[..|blocks| - 1]) + (if name in b.samples && b.samples[name].Data? then [b.samples[name].mean10sec] else [])
  }

  predicate HasSample(name: string, b: Block)
  {
    name in b.samples
  }

  predicate HasMean(name: string, b: Block)
  {
    name in b.samples && b.samples[name].Data?
  }

  /** The timestamp of the first block holding a sample of `name`. */
  function FirstStamp(name: string, blocks: seq<Block>): (r: Option<int>)
    requires Stamped(blocks)
    ensures r.Some? <==> exists i :: 0 <= i < |blocks| && HasSample(name, blocks[i])
    decreases |blocks|
  {
    if blocks == [] then None
    else
      var init := blocks[..|blocks| - 1];
      assert Stamped(init);
      assert forall i :: 0 <= i < |init| ==> blocks[i] == init[i];
      var r := FirstStamp(name, init);
      if r.Some? then r
      else if HasSample(name, blocks[|blocks| - 1]) then blocks[|blocks| - 1].timestamp
      else None
  }

  /** The timestamp of the first block holding a mean of `name`. */
  function FirstMeanStamp(name: string, blocks: seq<Block>): (r: Option<int>)
    requires Stamped(blocks)
    ensures r.Some? <==> exists i :: 0 <= i < |blocks| && HasMean(name, blocks[i])
    decreases |blocks|
  {
    if blocks == [] then None
    else
      var init := blocks[..|blocks| - 1];
      assert Stamped(init);
      assert forall i :: 0 <= i < |init| ==> blocks[i] == init[i];
      var r := FirstMeanStamp(name, init);
      if r.Some? then r
      else if HasMean(name, blocks[|blocks| - 1]) then blocks[|blocks| - 1].timestamp
      else None
  }

  /** The series `s0` (if any) continued with `values`, or a fresh series
      stamped `first` when there was none and there is something to add. */
  function Continued<T>(s0: Option<Series<T>>, first: Option<int>, values: seq<T>): Option<Series<T>>
  {
    match s0
    case Some(s) => Some(Series(s.timestamp, s.values + values))
    case None => if first.Some? then Some(Series(first.value, values)) else None
  }

  function Lookup<T>(m: map<string, Series<T>>, k: string): Option<Series<T>>
  {
    if k in m then Some(m[k]) else None
  }

  /** Visiting one name's samples leaves every other name's series alone. */
  lemma {:induction false} VisitBlocksFrame(count: map<string, Series<int>>, mean: map<string, Series<Num>>, name: string, blocks: seq<Block>, k: string)
    requires k != name
    ensures var r := VisitBlocks(count, mean, name, blocks);
      Lookup(r.count, k) == Lookup(count, k) && Lookup(r.mean, k) == Lookup(mean, k)
    decreases |blocks|
  {
    if blocks != [] {
      VisitBlocksFrame(count, mean, name, blocks[..|blocks| - 1], k);
    }
  }

  /** The walk over the blocks for one name ends without an exception
      exactly when every block is stamped and every count of the name reads
      as an int; the exception is then KeyError or ValueError. */
  lemma {:induction false} VisitBlocksFails(count: map<string, Series<int>>, mean: map<string, Series<Num>>, name: string, blocks: seq<Block>)
    ensures var r := VisitBlocks(count, mean, name, blocks);
      (r.failure.None? <==> Stamped(blocks) && Readable(name, blocks))
      && (r.failure == None || r.failure == Some(KeyError) || r.failure == Some(ValueError))
    decreases |blocks|
  {
    if blocks != [] {
      var init := blocks[..|blocks| - 1];
      VisitBlocksFails(count, mean, name, init);
      assert forall i :: 0 <= i < |init| ==> blocks[i] == init[i];
    }
  }

  /** For a name whose samples all read, the walk over stamped blocks ends
      without an exception and continues the name's count series with the
      counts of its samples, and its mean series with their means; a series
      that did not exist starts at the first block that contributes to it. */
  lemma VisitBlocksSeries(count: map<string, Series<int>>, mean: map<string, Series<Num>>, name: string, blocks: seq<Block>)
    requires Stamped(blocks) && Readable(name, blocks)
    ensures var r := VisitBlocks(count, mean, name, blocks);
      r.failure.None?
      && Lookup(r.count, name) == Continued(Lookup(count, name), FirstStamp(name, blocks), Counts(name, blocks))
      && Lookup(r.mean, name) == Continued(Lookup(mean, name), FirstMeanStamp(name, blocks), Means(name, blocks))
  {
    VisitBlocksFails(count, mean, name, blocks);
    VisitBlocksCounts(count, mean, name, blocks);
    VisitBlocksMeans(count, mean, name, blocks);
  }

  /** The series a name has after one more value: the existing one, or a
      new one stamped `t`, with `v` appended. */
  function Grown<T>(s: Option<Series<T>>, t: int, v: T): Option<Series<T>>
  {
    var o := if s.Some? then s.value else Series(t, []);
    Some(o.(values := o.values + [v]))
  }

  /** One visit of a stamped block whose sample of `name` reads. */
  lemma VisitStep(count: map<string, Series<int>>, mean: map<string, Series<Num>>, name: string, b: Block)
    requires b.timestamp.Some? && (name in b.samples ==> CountOf(b.samples[name]).Ok?)
    ensures var r := Visit(count, mean, name, b);
      r.failure.None?
      && Lookup(r.count, name) ==
           (if HasSample(name, b) then Grown(Lookup(count, name), b.timestamp.value, CountOf(b.samples[name]).value)
            else Lookup(count, name))
      && Lookup(r.mean, name) ==
           (if HasMean(name, b) then Grown(Lookup(mean, name), b.timestamp.value, b.samples[name].mean10sec)
            else Lookup(mean, name))
  {
  }

  lemma {:induction false} VisitBlocksCounts(count: map<string, Series<int>>, mean: map<string, Series<Num>>, name: string, blocks: seq<Block>)
    requires Stamped(blocks) && Readable(name, blocks)
    ensures var r := VisitBlocks(count, mean, name, blocks);
      r.failure.None? && Lookup(r.count, name) == Continued(Lookup(count, name), FirstStamp(name, blocks), Counts(name, blocks))
    decreases |blocks|
  {
    if blocks == [] {
      ContinuedNothing(Lookup(count, name));
    } else {
      var init := blocks[..|blocks| - 1];
      assert forall i :: 0 <= i < |init| ==> blocks[i] == init[i];
      VisitBlocksCounts(count, mean, name, init);
      var r := VisitBlocks(count, mean, name, init);
      var b := blocks[|blocks| - 1];
      VisitStep(r.count, r.mean, name, b);
      var after := Lookup(VisitBlocks(count, mean, name, blocks).count, name);
      assert after == Lookup(Visit(r.count, r.mean, name, b).count, name);
      var s0, f := Lookup(count, name), FirstStamp(name, init);
      assert Lookup(r.count, name) == Continued(s0, f, Counts(name, init));
      if HasSample(name, b) {
        var t, v := b.timestamp.value, CountOf(b.samples[name]).value;
        NoStampNoCounts(name, init);
        ContinuedMore(s0, f, Counts(name, init), t, v);
        assert after == Grown(Continued(s0, f, Counts(name, init)), t, v);
        assert Counts(name, blocks) == Counts(name, init) + [v];
        assert FirstStamp(name, blocks) == if f.Some? then f else Some(t);
      } else {
        assert after == Lookup(r.count, name);
        assert Counts(name, blocks) == Counts(name, init);
        assert FirstStamp(name, blocks) == f;
      }
    }
  }

  lemma {:induction false} VisitBlocksMeans(count: map<string, Series<int>>, mean: map<string, Series<Num>>, name: string, blocks: seq<Block>)
    requires Stamped(blocks) && Readable(name, blocks)
    ensures var r := VisitBlocks(count, mean, name, blocks);
      r.failure.None? && Lookup(r.mean, name) == Continued(Lookup(mean, name), FirstMeanStamp(name, blocks), Means(name, blocks))
    decreases |blocks|
  {
    if blocks == [] {
      ContinuedNothing(Lookup(mean, name));
    } else {
      var init := blocks[..|blocks| - 1];
      assert forall i :: 0 <= i < |init| ==> blocks[i] == init[i];
      VisitBlocksMeans(count, mean, name, init);
      var r := VisitBlocks(count, mean, name, init);
      var b := blocks[|blocks| - 1];
      VisitStep(r.count, r.mean, name, b);
      var after := Lookup(VisitBlocks(count, mean, name, blocks).mean, name);
      assert after == Lookup(Visit(r.count, r.mean, name, b).mean, name);
      var s0, f := Lookup(mean, name), FirstMeanStamp(name, init);
      assert Lookup(r.mean, name) == Continued(s0, f, Means(name, init));
      if HasMean(name, b) {
        var t, v := b.timestamp.value, b.samples[name].mean10sec;
        NoStampNoMeans(name, init);
        ContinuedMore(s0, f, Means(name, init), t, v);
        assert after == Grown(Continued(s0, f, Means(name, init)), t, v);
        assert Means(name, blocks) == Means(name, init) + [v];
        assert FirstMeanStamp(name, blocks) == if f.Some? then f else Some(t);
      } else {
        assert after == Lookup(r.mean, name);
        assert Means(name, blocks) == Means(name, init);
        assert FirstMeanStamp(name, blocks) == f;
      }
    }
  }

  lemma ContinuedNothing<T>(s0: Option<Series<T>>)
    ensures Continued(s0, None, []) == s0
  {
    if s0.Some? {
      assert s0.value.values + [] == s0.value.values;
    }
  }

  lemma {:induction false} NoStampNoCounts(name: string, blocks: seq<Block>)
    requires Stamped(blocks) && Readable(name, blocks)
    ensures FirstStamp(name, blocks).None? ==> Counts(name, blocks) == []
    decreases |blocks|
  {
    if blocks != [] {
      var init := blocks[..|blocks| - 1];
      assert forall i :: 0 <= i < |init| ==> blocks[i] == init[i];
      NoStampNoCounts(name, init);
    }
  }

  lemma {:induction false} NoStampNoMeans(name: string, blocks: seq<Block>)
    requires Stamped(blocks)
    ensures FirstMeanStamp(name, blocks).None? ==> Means(name, blocks) == []
    decreases |blocks|
  {
    if blocks != [] {
      var init := blocks[..|blocks| - 1];
      assert forall i :: 0 <= i < |init| ==> blocks[i] == init[i];
      NoStampNoMeans(name, init);
    }
  }

  /** Opening a series if need be and appending one value continues it. */
  lemma ContinuedMore<T>(s0: Option<Series<T>>, first: Option<int>, values: seq<T>, t: int, v: T)
    requires first.None? ==> values == []
    ensures Continued(s0, if first.Some? then first else Some(t), values + [v]) == Grown(Continued(s0, first, values), t, v)
  {
    if s0.Some? {
      assert s0.value.values + (values + [v]) == (s0.value.values + values) + [v];
    }
  }

  /** The walk over the names ends without an exception exactly when there
      are no names, or every block is stamped and every name's counts read. */
  lemma {:induction false} VisitNamesFails(count: map<string, Series<int>>, mean: map<string, Series<Num>>, names: seq<string>, blocks: seq<Block>)
    ensures var r := VisitNames(count, mean, names, blocks);
      r.failure.None? <==> names == [] || (Stamped(blocks) && forall k :: k in names ==> Readable(k, blocks))
    decreases |names|
  {
    if names != [] {
      var init := names[..|names| - 1];
      var last := names[|names| - 1];
      VisitNamesFails(count, mean, init, blocks);
      var r := VisitNames(count, mean, init, blocks);
      VisitBlocksFails(r.count, r.mean, last, blocks);
      assert forall k :: k in names <==> k in init || k == last;
    }
  }

  /** Names the walk does not visit keep their series. */
  lemma {:induction false} VisitNamesFrame(count: map<string, Series<int>>, mean: map<string, Series<Num>>, names: seq<string>, blocks: seq<Block>, k: string)
    requires k !in names
    ensures var r := VisitNames(count, mean, names, blocks);
      Lookup(r.count, k) == Lookup(count, k) && Lookup(r.mean, k) == Lookup(mean, k)
    decreases |names|
  {
    if names != [] {
      var init := names[..|names| - 1];
      VisitNamesFrame(count, mean, init, blocks, k);
      var r := VisitNames(count, mean, init, blocks);
      VisitBlocksFrame(r.count, r.mean, names[|names| - 1], blocks, k);
    }
  }

  /** Walking names that repeat none, over stamped blocks whose counts all
      read, leaves each visited name with its old series continued by its
      counts and means in block order. */
  lemma {:induction false} VisitNamesSeries(count: map<string, Series<int>>, mean: map<string, Series<Num>>, names: seq<string>, blocks: seq<Block>, k: string)
    requires Distinct(names) && Stamped(blocks) && (forall n :: n in names ==> Readable(n, blocks))
    requires k in names
    ensures var r := VisitNames(count, mean, names, blocks);
      Lookup(r.count, k) == Continued(Lookup(count, k), FirstStamp(k, blocks), Counts(k, blocks))
      && Lookup(r.mean, k) == Continued(Lookup(mean, k), FirstMeanStamp(k, blocks), Means(k, blocks))
    decreases |names|
  {
    var init := names[..|names| - 1];
    var last := names[|names| - 1];
    assert forall n :: n in names <==> n in init || n == last;
    var distinctInit: bool := Distinct(init);
    assert distinctInit by {
      forall i, j | 0 <= i < j < |init| ensures init[i] != init[j] {
        assert init[i] == names[i] && init[j] == names[j];
      }
    }
    VisitNamesFails(count, mean, init, blocks);
    var r := VisitNames(count, mean, init, blocks);
    if k == last {
      assert last !in init;
      VisitNamesFrame(count, mean, init, blocks, k);
      VisitBlocksSeries(r.count, r.mean, k, blocks);
    } else {
      VisitNamesSeries(count, mean, init, blocks, k);
      VisitBlocksFrame(r.count, r.mean, last, blocks, k);
    }
  }

  /** `process` completes exactly when there is a block, every block is
      stamped and the counts of every walked name read as ints; with no
      blocks it raises IndexError, with an unstamped first block KeyError. */
  lemma ProcessOfOutcome(blocks: seq<Block>, g: Groups, start: int, count: map<string, Series<int>>, mean: map<string, Series<Num>>)
    ensures var p := ProcessOf(blocks, g, start, count, mean);
      (p.outcome == Done <==> blocks != [] && Stamped(blocks) && forall k :: k in AllNames(g) ==> Readable(k, blocks))
      && (blocks == [] ==> p.outcome == Raised(IndexError))
      && (blocks != [] && blocks[0].timestamp.None? ==> p.outcome == Raised(KeyError))
      && (p.outcome.Raised? && (blocks == [] || blocks[0].timestamp.None?) ==> p == Processed(start, count, mean, p.outcome))
  {
    if blocks != [] && blocks[0].timestamp.Some? {
      assert AllNames(g) != [];
      VisitNamesFails(count, mean, AllNames(g), blocks);
    } else if blocks != [] {
      assert !Stamped(blocks);
    }
  }

  /** After a complete `process`, the start is the first block's timestamp,
      each walked name holds its old series continued by the counts and
      means of its samples, and every other name keeps what it had. */
  lemma ProcessOfSeries(blocks: seq<Block>, g: Groups, start: int, count: map<string, Series<int>>, mean: map<string, Series<Num>>, k: string)
    requires Classified(g)
    requires ProcessOf(blocks, g, start, count, mean).outcome == Done
    ensures var p := ProcessOf(blocks, g, start, count, mean);
      blocks != [] && Stamped(blocks) && p.start == blocks[0].timestamp.value
      && (k in AllNames(g) ==>
            Readable(k, blocks)
            && Lookup(p.count, k) == Continued(Lookup(count, k), FirstStamp(k, blocks), Counts(k, blocks))
            && Lookup(p.mean, k) == Continued(Lookup(mean, k), FirstMeanStamp(k, blocks), Means(k, blocks)))
      && (k !in AllNames(g) ==> Lookup(p.count, k) == Lookup(count, k) && Lookup(p.mean, k) == Lookup(mean, k))
  {
    ProcessOfOutcome(blocks, g, start, count, mean);
    if k in AllNames(g) {
      AllNamesDistinct(g);
      VisitNamesSeries(count, mean, AllNames(g), blocks, k);
    } else {
      VisitNamesFrame(count, mean, AllNames(g), blocks, k);
    }
  }

  /** The ignored transactions keep whatever series they had, whether or
      not `process` completes. */
  lemma IgnoredKeepSeries(blocks: seq<Block>, g: Groups, start: int, count: map<string, Series<int>>, mean: map<string, Series<Num>>, k: string)
    requires Classified(g) && k in IgnoreTransactions
    ensures var p := ProcessOf(blocks, WithoutIgnored(g), start, count, mean);
      Lookup(p.count, k) == Lookup(count, k) && Lookup(p.mean, k) == Lookup(mean, k)
  {
    IgnoredNotWalked(g, k);
    ProcessOfFrame(blocks, WithoutIgnored(g), start, count, mean, k);
  }

  /** A name `process` does not walk keeps its series. */
  lemma ProcessOfFrame(blocks: seq<Block>, g: Groups, start: int, count: map<string, Series<int>>, mean: map<string, Series<Num>>, k: string)
    requires k !in AllNames(g)
    ensures var p := ProcessOf(blocks, g, start, count, mean);
      Lookup(p.count, k) == Lookup(count, k) && Lookup(p.mean, k) == Lookup(mean, k)
  {
    VisitNamesFrame(count, mean, AllNames(g), blocks, k);
  }

  /** The count of a parsed transaction sample always reads (only HTTP
      counters hold text). */
  lemma {:induction false} DataReadable(name: string, blocks: seq<Block>)
    requires forall i :: 0 <= i < |blocks| && name in blocks[i].samples ==> blocks[i].samples[name].Data?
    ensures Readable(name, blocks)
  {
  }

  /** A name with only transaction samples has as many means as counts, and
      both series start at the same block. */
  lemma {:induction false} DataAligned(name: string, blocks: seq<Block>)
    requires Stamped(blocks)
    requires forall i :: 0 <= i < |blocks| && name in blocks[i].samples ==> blocks[i].samples[name].Data?
    ensures Readable(name, blocks)
    ensures |Counts(name, blocks)| == |Means(name, blocks)|
    ensures FirstStamp(name, blocks) == FirstMeanStamp(name, blocks)
    decreases |blocks|
  {
    if blocks != [] {
      var init := blocks[..|blocks| - 1];
      assert forall i :: 0 <= i < |init| ==> blocks[i] == init[i];
      DataAligned(name, init);
    }
  }

  /** A name with only HTTP counter samples gets no mean series. */
  lemma {:induction false} CountersHaveNoMeans(name: string, blocks: seq<Block>)
    requires Stamped(blocks)
    requires forall i :: 0 <= i < |blocks| && name in blocks[i].samples ==> blocks[i].samples[name].Counter?
    ensures Means(name, blocks) == [] && FirstMeanStamp(name, blocks).None?
    decreases |blocks|
  {
    if blocks != [] {
      var init := blocks[..|blocks| - 1];
      assert forall i :: 0 <= i < |init| ==> blocks[i] == init[i];
      CountersHaveNoMeans(name, init);
    }
  }

  /** A series starts at the timestamp of the first block holding a sample
      of the name. */
  lemma {:induction false} FirstStampIsFirst(name: string, blocks: seq<Block>)
    requires Stamped(blocks) && FirstStamp(name, blocks).Some?
    ensures exists i :: 0 <= i < |blocks| && HasSample(name, blocks[i])
                && FirstStamp(name, blocks) == blocks[i].timestamp
                && forall j :: 0 <= j < i ==> !HasSample(name, blocks[j])
    decreases |blocks|
  {
    var init := blocks[..|blocks| - 1];
    assert forall i :: 0 <= i < |init| ==> blocks[i] == init[i];
    if FirstStamp(name, init).Some? {
      FirstStampIsFirst(name, init);
      var i :| 0 <= i < |init| && HasSample(name, init[i])
        && FirstStamp(name, init) == init[i].timestamp
        && forall j :: 0 <= j < i ==> !HasSample(name, init[j]);
      assert HasSample(name, blocks[i]);
    } else {
      var i := |blocks| - 1;
      assert forall j :: 0 <= j < i ==> !HasSample(name, init[j]);
    }
  }

  /** A mean series starts at the timestamp of the first block holding a
      transaction sample of the name. */
  lemma {:induction false} FirstMeanStampIsFirst(name: string, blocks: seq<Block>)
    requires Stamped(blocks) && FirstMeanStamp(name, blocks).Some?
    ensures exists i :: 0 <= i < |blocks| && HasMean(name, blocks[i])
                && FirstMeanStamp(name, blocks) == blocks[i].timestamp
                && forall j :: 0 <= j < i ==> !HasMean(name, blocks[j])
    decreases |blocks|
  {
    var init := blocks[..|blocks| - 1];
    assert forall i :: 0 <= i < |init| ==> blocks[i] == init[i];
    if FirstMeanStamp(name, init).Some? {
      FirstMeanStampIsFirst(name, init);
      var i :| 0 <= i < |init| && HasMean(name, init[i])
        && FirstMeanStamp(name, init) == init[i].timestamp
        && forall j :: 0 <= j < i ==> !HasMean(name, init[j]);
      assert HasMean(name, blocks[i]);
    } else {
      var i := |blocks| - 1;
      assert forall j :: 0 <= j < i ==> !HasMean(name, init[j]);
    }
  }
}
