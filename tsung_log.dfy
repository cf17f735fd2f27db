/** The tsung.log reader of `Tsung.parse`: what each line means, and how the
    lines of a log become a list of blocks, one per statistics dump. */
module TsungLog {
  import opened Wrappers
  import opened Strings
  import opened Numerals
  import opened Utils

  /** The line that opens a dump: the prefix, then the dump's timestamp. */
  const PrefixHeader: string := "# stats: dump at"
  const PrefixHeaderLength: nat := |PrefixHeader|
  /** Characters skipped before a statistic's name: `len('stats: ')`. */
  const PrefixDataSkip: nat := |"stats: "|
  const PrefixError: string := "error_"
  const PrefixTransaction: string := "tr_"

  /** A statistic of one dump. A transaction line holds seven numbers
      (`Data`); a line whose name is an HTTP status code keeps its two
      values as text (`DataCounter` in the source). */
  datatype Sample =
    | Data(name: string, count10sec: Num, mean10sec: Num, stddev10sec: Num, max: Num, min: Num, mean: Num, count: Num)
    | Counter(name: string, count10secText: string, total: string)

  /** One dump: its timestamp (the `'timestamp'` key of the source's dict,
      which only a header line sets) and its statistics by name. */
  datatype Block = Block(timestamp: Option<int>, samples: map<string, Sample>)

  const EmptyBlock := Block(None, map[])

  /** Python truthiness of the block's dict. */
  predicate NonEmpty(b: Block)
  {
    b.timestamp.Some? || |b.samples| > 0
  }

  /** What one line of the log does. */
  datatype LineEffect =
    | Skip
    | Header(timestamp: Option<int>)
    | Store(sample: Sample)
    | Fail(error: Failure)

  /** `number` applied to every token, in order; None if any raises. */
  function Numbers(tokens: seq<string>): (r: Option<seq<Num>>)
    ensures r.Some? <==> forall i :: 0 <= i < |tokens| ==> Number(tokens[i]).Some?
    ensures r.Some? ==> |r.value| == |tokens| && forall i :: 0 <= i < |tokens| ==> r.value[i] == Number(tokens[i]).value
    decreases |tokens|
  {
    if tokens == [] then Some([])
    else
      match Number(tokens[0])
      case None => None
      case Some(n) =>
        match Numbers(tokens[1..])
        case None => None
        case Some(ns) => Some([n] + ns)
  }

  /** A transaction line after the skipped prefix: every value goes through
      `number` (ValueError) before the record is built with exactly seven of
      them (TypeError). */
  function TransactionEffect(words: seq<string>): LineEffect
    requires |words| > 0
  {
    match Numbers(words[1..])
    case None => Fail(ValueError)
    case Some(vs) =>
      if |vs| != 7 then Fail(TypeError)
      else Store(Data(words[0], vs[0], vs[1], vs[2], vs[3], vs[4], vs[5], vs[6]))
  }

  /** Any other statistic: a status code line is a three-field record
      (TypeError otherwise), other names are dropped. */
  function OtherEffect(words: seq<string>): LineEffect
  {
    if words == [] then Fail(IndexError)
    else if IsDigits(words[0]) then
      if |words| == 3 then Store(Counter(words[0], words[1], words[2])) else Fail(TypeError)
    else Skip
  }

  lemma PrefixTransactionWord()
    ensures PrefixTransaction != [] && NoSpace(PrefixTransaction)
  {
    var p := PrefixTransaction;
    assert p[0] == 't' && p[1] == 'r' && p[2] == '_';
    forall i | 0 <= i < |p| ensures !IsSpace(p[i]) {
      assert i == 0 || i == 1 || i == 2;
    }
  }

  /** A statistic line after the skipped prefix. */
  function Record(rest: string): LineEffect
  {
    if StartsWith(rest, PrefixTransaction) then
      PrefixTransactionWord();
      FirstWordKeepsPrefix(rest, PrefixTransaction);
      TransactionEffect(Split(rest))
    else OtherEffect(Split(rest))
  }

  /** A stripped line: blank, a dump header, or a statistic. */
  function StrippedLine(l: string): LineEffect
  {
    if l == "" then Skip
    else if StartsWith(l, PrefixHeader) then Header(ParseInt(Drop(l, PrefixHeaderLength)))
    else Record(Drop(l, PrefixDataSkip))
  }

  /** The meaning of one line of tsung.log. */
  function Interpret(line: string): LineEffect
  {
    StrippedLine(Strip(line))
  }

  /** The meaning of every line, in order. */
  function Effects(lines: seq<string>): (r: seq<LineEffect>)
    ensures |r| == |lines|
    decreases |lines|
  {
    if lines == [] then [] else Effects(lines[..|lines| - 1]) + [Interpret(lines[|lines| - 1])]
  }

  /** The meaning of line `k` is the `k`-th effect. */
  lemma {:induction false} EffectsAt(lines: seq<string>, k: nat)
    requires k < |lines|
    ensures Effects(lines)[k] == Interpret(lines[k])
    decreases |lines|
  {
    if k < |lines| - 1 {
      var init := lines[..|lines| - 1];
      EffectsAt(init, k);
      assert init[k] == lines[k];
    }
  }

  /** The reader's state after some lines: the blocks handed over so far,
      the block being filled, and the exception that stopped it, if any. */
  datatype Scan = Scan(done: seq<Block>, current: Block, failure: Option<Failure>)

  /** A non-empty block is handed over when a header opens the next. */
  function Closed(done: seq<Block>, current: Block): seq<Block>
  {
    if NonEmpty(current) then done + [current] else done
  }

  /** One line's effect applied to a running reader. */
  function Step(s: Scan, e: LineEffect): Scan
    requires s.failure.None?
  {
    match e
    case Skip => s
    case Header(t) =>
      var done := Closed(s.done, s.current);
      if t.None? then Scan(done, s.current, Some(ValueError)) else Scan(done, Block(t, map[]), None)
    case Store(d) => s.(current := s.current.(samples := s.current.samples[d.name := d]))
    case Fail(err) => s.(failure := Some(err))
  }

  /** The reader after the effects `es`, stopping at the first exception. */
  function ScanEffects(es: seq<LineEffect>): Scan
    decreases |es|
  {
    if es == [] then Scan([], EmptyBlock, None)
    else
      var s := ScanEffects(es[..|es| - 1]);
      if s.failure.Some? then s else Step(s, es[|es| - 1])
  }

  /** What `parse` appends to the list of blocks, and how it ends: the last
      block is appended even when empty; an exception leaves the blocks
      appended before it. */
  datatype ParseResult = ParseResult(blocks: seq<Block>, outcome: Outcome)

  function Finish(s: Scan): (r: ParseResult)
    ensures r.outcome.Done? <==> s.failure.None?
  {
    if s.failure.None? then ParseResult(s.done + [s.current], Done) else ParseResult(s.done, Raised(s.failure.value))
  }

  /** The result of reading the lines of a log. */
  function ParseLog(lines: seq<string>): ParseResult
  {
    Finish(ScanEffects(Effects(lines)))
  }

  // ---------------------------------------------------------------------
  // What single lines mean

  /** A line that is blank once stripped does nothing. */
  lemma BlankLineSkipped(line: string)
    requires AllSpace(line)
    ensures Interpret(line) == Skip
  {
    StripEmpty(line);
  }

  lemma StripNonBlank(line: string)
    requires line != [] && !IsSpace(line[0]) && !IsSpace(line[|line| - 1])
    ensures Strip(line) == line
  {
    StripUnchanged(line);
  }

  lemma DigitsNoSpace(s: string)
    requires IsDigits(s)
    ensures !IsSpace(s[0]) && !IsSpace(s[|s| - 1])
  {
    assert IsDigit(s[0]) && IsDigit(s[|s| - 1]);
  }

  /** `"# stats: dump at <ts>"`, as tsung writes it, opens a dump with
      timestamp `ts`. */
  lemma HeaderLineRead(ts: nat)
    ensures Interpret(PrefixHeader + " " + NatToString(ts)) == Header(Some(ts))
  {
    var digits := NatToString(ts);
    var line := PrefixHeader + " " + digits;
    HeaderLineStripped(digits);
    HeaderLineTail(digits);
    HeaderTimestamp(digits);
    NatToStringValue(ts);
    ParseIntDigits(digits);
  }

  lemma HeaderLineStripped(digits: string)
    requires IsDigits(digits)
    ensures var line := PrefixHeader + " " + digits;
      Strip(line) == line && line != "" && StartsWith(line, PrefixHeader)
  {
    var line := PrefixHeader + " " + digits;
    DigitsNoSpace(digits);
    assert line[|line| - 1] == digits[|digits| - 1];
    assert line[0] == '#';
    StripNonBlank(line);
    assert line[..|PrefixHeader|] == PrefixHeader;
  }

  lemma HeaderLineTail(digits: string)
    ensures Drop(PrefixHeader + " " + digits, PrefixHeaderLength) == " " + digits
  {
    var line := PrefixHeader + " " + digits;
    assert line[PrefixHeaderLength..] == " " + digits;
  }

  lemma HeaderTimestamp(digits: string)
    requires IsDigits(digits)
    ensures Strip(" " + digits) == digits
  {
    DigitsNoSpace(digits);
    TrimStartSpace(digits);
    StripUnchanged(digits);
  }

  lemma TrimStartSpace(s: string)
    requires s != [] && !IsSpace(s[0])
    ensures TrimStart(" " + s) == s
  {
    var t := " " + s;
    var r := TrimStart(t);
    assert t[1..] == s;
    assert IsSpace(t[0]);
    assert r == TrimStart(s);
  }

  /** A `stats: ` line built from words is its own strip, and is read as
      the statistic after the skipped prefix. */
  lemma StatLine(ws: seq<string>)
    requires |ws| > 0 && Words(ws)
    ensures Interpret("stats: " + JoinWords(ws)) == Record(JoinWords(ws))
  {
    var rest := JoinWords(ws);
    var line := "stats: " + rest;
    JoinWordsLast(ws);
    StatLineStripped(rest);
    StatLineTail(rest);
    assert line[0] != PrefixHeader[0];
  }

  lemma StatLineStripped(rest: string)
    requires |rest| > 0 && !IsSpace(rest[|rest| - 1])
    ensures Strip("stats: " + rest) == "stats: " + rest
  {
    var line := "stats: " + rest;
    var n := |rest|;
    assert |line| == 7 + n;
    assert line[6 + n] == rest[n - 1];
    assert line[0] == 's';
    StripNonBlank(line);
  }

  lemma JoinWordsLast(ws: seq<string>)
    requires |ws| > 0 && Words(ws)
    ensures var j := JoinWords(ws); |j| > 0 && !IsSpace(j[|j| - 1])
  {
    JoinWordsEnds(ws);
    var w := ws[|ws| - 1];
    assert w != "" && NoSpace(w);
  }

  lemma StatLineTail(rest: string)
    ensures Drop("stats: " + rest, PrefixDataSkip) == rest
  {
    assert ("stats: " + rest)[7..] == rest;
  }

  lemma JoinWordsPrefix(ws: seq<string>, p: string)
    requires |ws| > 0 && Words(ws) && StartsWith(ws[0], p)
    ensures StartsWith(JoinWords(ws), p)
  {
    var j := JoinWords(ws);
    if |ws| > 1 {
      assert j == ws[0] + (" " + JoinWords(ws[1..]));
      assert j[..|p|] == ws[0][..|p|];
    }
  }

  /** Words starting with a `tr_` name are read as a transaction line. */
  lemma TransactionRecord(ws: seq<string>)
    requires |ws| > 0 && Words(ws) && StartsWith(ws[0], PrefixTransaction)
    ensures Record(JoinWords(ws)) == TransactionEffect(ws)
  {
    JoinWordsPrefix(ws, PrefixTransaction);
    SplitJoinWords(ws);
  }

  /** `"stats: <name> <v1> … <v7>"` with a `tr_` name and seven values that
      `number` accepts stores a transaction record under that name. */
  lemma TransactionLineRead(name: string, values: seq<string>)
    requires StartsWith(name, PrefixTransaction) && Words([name] + values)
    requires |values| == 7 && forall i :: 0 <= i < 7 ==> Number(values[i]).Some?
    ensures var v := seq(7, i requires 0 <= i < 7 => Number(values[i]).value);
      Interpret("stats: " + JoinWords([name] + values))
        == Store(Data(name, v[0], v[1], v[2], v[3], v[4], v[5], v[6]))
  {
    var ws := [name] + values;
    StatLine(ws);
    TransactionRecord(ws);
    assert ws[1..] == values;
  }

  /** A transaction line whose values `number` accepts but which does not
      hold exactly seven of them raises TypeError. */
  lemma TransactionLineArity(name: string, values: seq<string>)
    requires StartsWith(name, PrefixTransaction) && Words([name] + values)
    requires |values| != 7 && forall i :: 0 <= i < |values| ==> Number(values[i]).Some?
    ensures Interpret("stats: " + JoinWords([name] + values)) == Fail(TypeError)
  {
    var ws := [name] + values;
    StatLine(ws);
    TransactionRecord(ws);
    assert ws[1..] == values;
  }

  /** A transaction line with a value `number` rejects raises ValueError,
      whatever the number of values. */
  lemma TransactionLineBadValue(name: string, values: seq<string>, k: nat)
    requires StartsWith(name, PrefixTransaction) && Words([name] + values)
    requires k < |values| && Number(values[k]).None?
    ensures Interpret("stats: " + JoinWords([name] + values)) == Fail(ValueError)
  {
    var ws := [name] + values;
    StatLine(ws);
    TransactionRecord(ws);
    assert ws[1..] == values;
  }

  /** Words starting with a status code are read as a counter line. */
  lemma CounterRecord(ws: seq<string>)
    requires |ws| > 0 && Words(ws) && IsDigits(ws[0])
    ensures Record(JoinWords(ws)) == OtherEffect(ws)
  {
    var rest := JoinWords(ws);
    JoinWordsEnds(ws);
    assert rest[0] == ws[0][0] && IsDigit(ws[0][0]);
    assert !StartsWith(rest, PrefixTransaction) by {
      if |rest| >= 3 { assert rest[..3][0] == rest[0]; }
    }
    SplitJoinWords(ws);
  }

  /** `"stats: <code> <count> <total>"` with a status code stores a counter
      record whose values stay text. */
  lemma CounterLineRead(code: string, count: string, total: string)
    requires IsDigits(code) && Words([code, count, total])
    ensures Interpret("stats: " + JoinWords([code, count, total])) == Store(Counter(code, count, total))
  {
    StatLine([code, count, total]);
    CounterRecord([code, count, total]);
  }

  /** A status code line without exactly three fields raises TypeError. */
  lemma CounterLineArity(ws: seq<string>)
    requires |ws| > 0 && Words(ws) && IsDigits(ws[0]) && |ws| != 3
    ensures Interpret("stats: " + JoinWords(ws)) == Fail(TypeError)
  {
    StatLine(ws);
    CounterRecord(ws);
  }

  /** A line of any other statistic (neither `tr_` nor a status code) is
      dropped. */
  lemma OtherLineSkipped(ws: seq<string>)
    requires |ws| > 0 && Words(ws) && !IsDigits(ws[0]) && !StartsWith(ws[0], PrefixTransaction)
    ensures Interpret("stats: " + JoinWords(ws)) == Skip
  {
    var rest := JoinWords(ws);
    StatLine(ws);
    SplitJoinWords(ws);
    FirstWord(rest);
  }

  lemma FirstWord(rest: string)
    requires Split(rest) != [] && !StartsWith(Split(rest)[0], PrefixTransaction)
    ensures !StartsWith(rest, PrefixTransaction)
  {
    if StartsWith(rest, PrefixTransaction) {
      PrefixTransactionWord();
      FirstWordKeepsPrefix(rest, PrefixTransaction);
    }
  }

  /** A non-blank line too short to hold a name after the skipped prefix
      raises IndexError. */
  lemma ShortLineFails(line: string)
    requires Strip(line) == line && line != "" && |line| <= PrefixDataSkip
    requires !StartsWith(line, PrefixHeader)
    ensures Interpret(line) == Fail(IndexError)
  {
    assert Drop(line, PrefixDataSkip) == "";
    SplitEmpty();
  }

  // ---------------------------------------------------------------------
  // What the reader builds

  /** A stored record's kind matches its name: `tr_` names hold
      transaction records, status codes hold counter records. */
  predicate KindFits(d: Sample)
  {
    (StartsWith(d.name, PrefixTransaction) <==> d.Data?) && (IsDigits(d.name) <==> d.Counter?)
  }

  predicate EffectFits(e: LineEffect)
  {
    e.Store? ==> KindFits(e.sample)
  }

  /** Every statistic is stored under its own name, with the record kind
      its name calls for. */
  predicate WellKeyed(b: Block)
  {
    forall k :: k in b.samples ==> b.samples[k].name == k && KindFits(b.samples[k])
  }

  lemma TransactionNotDigits(k: string)
    requires StartsWith(k, PrefixTransaction)
    ensures !IsDigits(k)
  {
    assert k[0] == k[..3][0] == 't';
  }

  lemma RecordFits(rest: string)
    ensures EffectFits(Record(rest))
  {
    var ws := Split(rest);
    if StartsWith(rest, PrefixTransaction) {
      PrefixTransactionWord();
      FirstWordKeepsPrefix(rest, PrefixTransaction);
      TransactionNotDigits(ws[0]);
    } else if ws != [] && IsDigits(ws[0]) {
      assert ws[0][0] != 't';
      assert !StartsWith(ws[0], PrefixTransaction) by {
        if |ws[0]| >= 3 { assert ws[0][..3][0] == ws[0][0]; }
      }
    }
  }

  /** Every line's effect stores a record of the kind its name calls for. */
  lemma InterpretFits(line: string)
    ensures EffectFits(Interpret(line))
  {
    var l := Strip(line);
    if l != "" && !StartsWith(l, PrefixHeader) {
      RecordFits(Drop(l, PrefixDataSkip));
    }
  }

  /** The reader's invariant: all blocks but the first carry a timestamp,
      handed-over blocks are non-empty, and every block is well keyed. */
  predicate Sound(s: Scan)
  {
    (forall i :: 0 <= i < |s.done| ==> WellKeyed(s.done[i]) && NonEmpty(s.done[i]))
    && (forall i :: 0 < i < |s.done| ==> s.done[i].timestamp.Some?)
    && WellKeyed(s.current)
    && (|s.done| > 0 && s.failure.None? ==> s.current.timestamp.Some?)
  }

  lemma StepSound(s: Scan, e: LineEffect)
    requires s.failure.None? && Sound(s) && EffectFits(e)
    ensures Sound(Step(s, e))
  {
    match e
    case Skip =>
    case Header(t) =>
    case Store(d) =>
      var r := Step(s, e);
      assert forall k :: k in r.current.samples ==> k == d.name || k in s.current.samples;
    case Fail(err) =>
  }

  lemma {:induction false} ScanSound(es: seq<LineEffect>)
    requires forall i :: 0 <= i < |es| ==> EffectFits(es[i])
    ensures Sound(ScanEffects(es))
    decreases |es|
  {
    if es != [] {
      var init := es[..|es| - 1];
      ScanSound(init);
      var s := ScanEffects(init);
      if s.failure.None? {
        StepSound(s, es[|es| - 1]);
      }
    }
  }

  lemma FinishShape(s: Scan)
    requires Sound(s)
    ensures var r := Finish(s);
      (forall i :: 0 <= i < |r.blocks| ==> WellKeyed(r.blocks[i]))
      && (forall i :: 0 < i < |r.blocks| ==> r.blocks[i].timestamp.Some?)
      && (forall i :: 0 <= i < |r.blocks| - 1 ==> NonEmpty(r.blocks[i]))
  {
  }

  /** After reading a log, every block but the first carries a timestamp,
      every block but the last is non-empty, and every statistic sits under
      its own name with the record kind its name calls for. */
  lemma ParseLogShape(lines: seq<string>)
    ensures var r := ParseLog(lines);
      (forall i :: 0 <= i < |r.blocks| ==> WellKeyed(r.blocks[i]))
      && (forall i :: 0 < i < |r.blocks| ==> r.blocks[i].timestamp.Some?)
      && (forall i :: 0 <= i < |r.blocks| - 1 ==> NonEmpty(r.blocks[i]))
  {
    var es := Effects(lines);
    forall i | 0 <= i < |es| ensures EffectFits(es[i]) {
      EffectsAt(lines, i);
      InterpretFits(lines[i]);
    }
    ScanSound(es);
    FinishShape(ScanEffects(es));
  }

  /** The timestamps of the header lines, in order (None for a header
      whose timestamp `int` rejects). */
  function HeaderStamps(es: seq<LineEffect>): (r: seq<Option<int>>)
    ensures |r| <= |es|
    decreases |es|
  {
    if es == [] then []
    else
      var init := HeaderStamps(es[..|es| - 1]);
      if es[|es| - 1].Header? then init + [es[|es| - 1].timestamp] else init
  }

  /** A log of blank lines still yields one block: the empty block the
      reader started with is appended at the end. */
  lemma {:induction false} BlankLogOneBlock(lines: seq<string>)
    requires forall i :: 0 <= i < |lines| ==> AllSpace(lines[i])
    ensures ParseLog(lines) == ParseResult([EmptyBlock], Done)
    ensures ScanEffects(Effects(lines)) == Scan([], EmptyBlock, None)
    decreases |lines|
  {
    if lines != [] {
      var init := lines[..|lines| - 1];
      assert forall i :: 0 <= i < |init| ==> init[i] == lines[i];
      BlankLogOneBlock(init);
      BlankLineSkipped(lines[|lines| - 1]);
      var es := Effects(lines);
      assert es[..|es| - 1] == Effects(init);
    }
  }

  /** Effects that stay within the current block: no header, no exception. */
  predicate WithinBlock(mid: seq<LineEffect>)
  {
    forall i :: 0 <= i < |mid| ==> mid[i].Skip? || mid[i].Store?
  }

  /** Two readers that differ at most in the record of `name` in the
      current block. */
  predicate AgreeBesides(s: Scan, t: Scan, name: string)
  {
    s.done == t.done && s.failure.None? && t.failure.None?
    && s.current.timestamp == t.current.timestamp
    && s.current.samples - {name} == t.current.samples - {name}
  }

  lemma StoreAgrees(s: Scan, t: Scan, name: string, d: Sample)
    requires AgreeBesides(s, t, name)
    ensures AgreeBesides(Step(s, Store(d)), Step(t, Store(d)), name)
    ensures d.name == name ==> Step(s, Store(d)) == Step(t, Store(d))
  {
    var a, b := s.current.samples[d.name := d], t.current.samples[d.name := d];
    forall k | k != name ensures (k in a <==> k in b) && (k in a ==> a[k] == b[k]) {
      assert k in s.current.samples - {name} <==> k in t.current.samples - {name};
      if k in s.current.samples && k != d.name {
        assert (s.current.samples - {name})[k] == (t.current.samples - {name})[k];
      }
    }
    assert a - {name} == b - {name};
    if d.name == name {
      assert a == b;
    }
  }

  lemma StoreForgotten(s: Scan, d: Sample)
    requires s.failure.None?
    ensures AgreeBesides(Step(s, Store(d)), s, d.name)
  {
    var a := s.current.samples[d.name := d];
    assert a - {d.name} == s.current.samples - {d.name};
  }

  /** The reader after one more effect that is not an exception. */
  lemma ScanLast(es: seq<LineEffect>, e: LineEffect)
    requires ScanEffects(es).failure.None?
    ensures ScanEffects(es + [e]) == Step(ScanEffects(es), e)
  {
    assert (es + [e])[..|es|] == es;
  }

  /** A record read for `d1.name`, followed by lines of the same block, is
      forgotten except for that name. */
  lemma {:induction false} StoreThenWithinBlock(es: seq<LineEffect>, d1: Sample, mid: seq<LineEffect>)
    requires ScanEffects(es).failure.None? && WithinBlock(mid)
    ensures AgreeBesides(ScanEffects(es + [Store(d1)] + mid), ScanEffects(es + mid), d1.name)
    decreases |mid|
  {
    if mid == [] {
      assert es + [Store(d1)] + mid == es + [Store(d1)];
      assert es + mid == es;
      ScanLast(es, Store(d1));
      StoreForgotten(ScanEffects(es), d1);
    } else {
      var init := mid[..|mid| - 1];
      var e := mid[|mid| - 1];
      assert WithinBlock(init) by {
        forall i | 0 <= i < |init| ensures init[i].Skip? || init[i].Store? {
          assert init[i] == mid[i];
        }
      }
      StoreThenWithinBlock(es, d1, init);
      var a, b := es + [Store(d1)] + init, es + init;
      assert es + [Store(d1)] + mid == a + [e];
      assert es + mid == b + [e];
      ScanLast(a, e);
      ScanLast(b, e);
      if e.Store? {
        StoreAgrees(ScanEffects(a), ScanEffects(b), d1.name, e.sample);
      }
    }
  }

  /** A name stored twice in one block keeps the later record, as if the
      first had never been read, whatever lines of the block come between. */
  lemma LastSampleWins(es: seq<LineEffect>, d1: Sample, mid: seq<LineEffect>, d2: Sample)
    requires ScanEffects(es).failure.None? && d1.name == d2.name && WithinBlock(mid)
    ensures ScanEffects(es + [Store(d1)] + mid + [Store(d2)]) == ScanEffects(es + mid + [Store(d2)])
  {
    StoreThenWithinBlock(es, d1, mid);
    var a, b := es + [Store(d1)] + mid, es + mid;
    ScanLast(a, Store(d2));
    ScanLast(b, Store(d2));
    StoreAgrees(ScanEffects(a), ScanEffects(b), d1.name, d2);
  }

  /** When the log opens with a readable header and no line raises, there
      is one block per header line, stamped with that header's timestamp,
      in order. */
  lemma BlocksFollowHeaders(lines: seq<string>)
    requires |lines| > 0 && Interpret(lines[0]).Header? && Interpret(lines[0]).timestamp.Some?
    requires ParseLog(lines).outcome.Done?
    ensures var bs := ParseLog(lines).blocks;
      var hs := HeaderStamps(Effects(lines));
      |bs| == |hs| && forall i :: 0 <= i < |bs| ==> bs[i].timestamp == hs[i]
  {
    EffectsAt(lines, 0);
    ScanStamps(Effects(lines));
  }

  lemma {:induction false} ScanStamps(es: seq<LineEffect>)
    requires |es| > 0 && es[0].Header? && es[0].timestamp.Some?
    requires ScanEffects(es).failure.None?
    ensures var s := ScanEffects(es);
      var all := s.done + [s.current];
      var hs := HeaderStamps(es);
      |all| == |hs| && s.current.timestamp.Some?
      && forall i :: 0 <= i < |all| ==> all[i].timestamp == hs[i]
    decreases |es|
  {
    var init := es[..|es| - 1];
    if |es| == 1 {
      assert init == [];
    } else {
      assert init[0] == es[0];
      var s0 := ScanEffects(init);
      assert s0.failure.None?;
      ScanStamps(init);
      match es[|es| - 1]
      case Header(t) =>
      case Skip =>
      case Store(d) =>
      case Fail(err) =>
    }
  }
}
