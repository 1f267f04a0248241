/** The one-hop trace of every LVR sense pair through the underground sense
    layout table: from the LVR port row, through the splitter board named on
    it, to the row holding the sense label, PPP couplers and tBB port. */
module SenseTrace {
  import opened Text
  import opened Lookups
  import opened Splitters

  /** One row of the sense layout workbook (columns A to J). */
  datatype LayoutRow = LayoutRow(
    crate: string, slot: string, lvrPort: string, spltr: string,
    spltrOut: string, spltrIn: string, senseLabel: string,
    pppTrue: string, pppMir: string, tbbPort: string)

  /** Why a trace aborts: `.item()` on a selection that is not exactly one
      row, a splitter label `get_spltr_type` cannot read, or a splitter table
      without a route for the pair (indexing `False` or `None`). */
  datatype TraceError = NoUniqueRow | BadSplitterLabel | RoutingUndefined

  datatype Result<T> = Ok(value: T) | Err(error: TraceError)

  // ---------------------------------------------------------------------
  // Row selections

  function RowsWithLvrPort(df: seq<LayoutRow>, port: string): (r: seq<LayoutRow>)
    ensures forall x :: x in r <==> x in df && x.lvrPort == port
  {
    if |df| == 0 then []
    else RowsWithLvrPort(df[..|df| - 1], port) + (if df[|df| - 1].lvrPort == port then [df[|df| - 1]] else [])
  }

  function RowsOfBoardPortA(df: seq<LayoutRow>, spltr: string): (r: seq<LayoutRow>)
    ensures forall x :: x in r <==> x in df && x.spltr == spltr && x.spltrOut == "a"
  {
    if |df| == 0 then []
    else
      var x := df[|df| - 1];
      RowsOfBoardPortA(df[..|df| - 1], spltr) + (if x.spltr == spltr && x.spltrOut == "a" then [x] else [])
  }

  function RowsWithInput(df: seq<LayoutRow>, input: string): (r: seq<LayoutRow>)
    ensures forall x :: x in r <==> x in df && x.spltrIn == input
  {
    if |df| == 0 then []
    else RowsWithInput(df[..|df| - 1], input) + (if df[|df| - 1].spltrIn == input then [df[|df| - 1]] else [])
  }

  // ---------------------------------------------------------------------
  // Tracing one pair

  function MakeSenseLine(out: LayoutRow, inRow: LayoutRow, lvr: int, con: string, pair: string,
                         inPort: string, inPair: string): SenseLine
  {
    SenseLine(out.crate, out.slot, IntToString(lvr), con, pair, out.spltr, out.spltrOut,
              inPort, inPair, inRow.senseLabel, inRow.pppTrue, inRow.pppMir, inRow.tbbPort)
  }

  /** The body of the innermost loop of `parse_cavern_sense` for one used
      (LVR, connector, pair).  The LVR port row must be unique; a direct cable
      (or a board type the code does not know) reads the sense label from that
      same row with input port "-" and the same pair; types 1 and 4 read the
      unique port-"a" row of the board; types 2, 3 and 6 read the unique row
      whose input is "<board>_<input port>". */
  function TraceOne(df: seq<LayoutRow>, lvr: int, con: string, pair: string): Result<SenseLine>
  {
    var outRows := RowsWithLvrPort(df, IntToString(lvr) + "_" + con);
    if |outRows| != 1 then Err(NoUniqueRow)
    else
      var out := outRows[0];
      match SpltrType(out.spltr)
      case None => Err(BadSplitterLabel)
      case Some(Direct) => Ok(MakeSenseLine(out, out, lvr, con, pair, "-", pair))
      case Some(Typed(t)) =>
        if t == '1' || t == '4' then
          var routing := if t == '1' then Some(Spltr1(out.spltrOut, pair)) else Spltr4(out.spltrOut, pair);
          if routing.None? then Err(RoutingUndefined)
          else
            var inRows := RowsOfBoardPortA(df, out.spltr);
            if |inRows| != 1 then Err(NoUniqueRow)
            else if !routing.value.Routed? then Err(RoutingUndefined)
            else
              Ok(MakeSenseLine(out, inRows[0], lvr, con, pair, routing.value.port, routing.value.pair))
        else if t == '2' || t == '3' || t == '6' then
          var routing := Table(t, out.spltrOut, pair);
          if !routing.Routed? then Err(RoutingUndefined)
          else
            var inRows := RowsWithInput(df, out.spltr + "_" + routing.port);
            if |inRows| != 1 then Err(NoUniqueRow)
            else
              Ok(MakeSenseLine(out, inRows[0], lvr, con, pair, routing.port, routing.pair))
        else Ok(MakeSenseLine(out, out, lvr, con, pair, "-", pair))
  }

  /** A traced sense line names its LVR, connector and pair; its crate,
      slot and splitter come from the unique LVR port row; its sense label
      and couplers come from a row of the table; a direct cable keeps the pair
      and a splitter board routes it through its wiring table. */
  lemma TraceOneSound(df: seq<LayoutRow>, lvr: int, con: string, pair: string)
    requires TraceOne(df, lvr, con, pair).Ok?
    ensures var sl, port := TraceOne(df, lvr, con, pair).value, IntToString(lvr) + "_" + con;
      && sl.lvr == IntToString(lvr) && sl.lvrCon == con && sl.lvrTwistpair == pair
      && |RowsWithLvrPort(df, port)| == 1
      && RowsWithLvrPort(df, port)[0].crate == sl.crate && RowsWithLvrPort(df, port)[0].slot == sl.slot
      && RowsWithLvrPort(df, port)[0].spltr == sl.spltr && RowsWithLvrPort(df, port)[0].spltrOut == sl.outSpltr
      && SpltrType(sl.spltr).Some?
      && exists x :: x in df && x.senseLabel == sl.inLabel && x.pppTrue == sl.pppTrue
           && x.pppMir == sl.pppMir && x.tbbPort == sl.tbbCon
    ensures var sl := TraceOne(df, lvr, con, pair).value;
      SpltrType(sl.spltr) == Some(Direct) ==> sl.inSpltr == "-" && sl.inTwistpair == pair
    ensures var sl := TraceOne(df, lvr, con, pair).value;
      SpltrType(sl.spltr).value.Typed? && IsBoardType(SpltrType(sl.spltr).value.t) ==>
        Table(SpltrType(sl.spltr).value.t, sl.outSpltr, pair) == Routed(sl.inSpltr, sl.inTwistpair)
  {
    var outRows := RowsWithLvrPort(df, IntToString(lvr) + "_" + con);
    assert outRows[0] in outRows;
    var out := outRows[0];
    match SpltrType(out.spltr)
    case None =>
    case Some(Direct) =>
    case Some(Typed(t)) =>
      if t == '1' || t == '4' {
        var inRows := RowsOfBoardPortA(df, out.spltr);
        assert inRows[0] in inRows;
      } else if t == '2' || t == '3' || t == '6' {
        var inRows := RowsWithInput(df, out.spltr + "_" + Table(t, out.spltrOut, pair).port);
        assert inRows[0] in inRows;
      }
  }

  /** For boards of types 2, 3 and 6 the traced line's `in_spltr_lab` names
      the input of the layout row the sense label was read from. */
  lemma InLabelNamesInputRow(df: seq<LayoutRow>, lvr: int, con: string, pair: string)
    requires TraceOne(df, lvr, con, pair).Ok?
    requires var t := SpltrType(TraceOne(df, lvr, con, pair).value.spltr).value;
      t == Typed('2') || t == Typed('3') || t == Typed('6')
    ensures var sl := TraceOne(df, lvr, con, pair).value;
      exists x :: x in df && x.spltrIn == InSpltrLab(sl).value && x.senseLabel == sl.inLabel
  {
    var sl := TraceOne(df, lvr, con, pair).value;
    TraceOneSound(df, lvr, con, pair);
    var outRows := RowsWithLvrPort(df, IntToString(lvr) + "_" + con);
    var out := outRows[0];
    var t := SpltrType(out.spltr).value.t;
    var inRows := RowsWithInput(df, out.spltr + "_" + Table(t, out.spltrOut, pair).port);
    assert inRows[0] in inRows;
  }

  // ---------------------------------------------------------------------
  // Collecting the outcomes of a sequence of steps

  /** What one step of a collecting loop does: nothing, append an item, or
      abort the whole loop. */
  datatype Step<T> = Skip | Emit(item: T) | Fail(error: TraceError)

  /** Running the steps for `keys` in order: the emitted items, or the
      error of the first failing step. */
  function Collect<K, T>(f: K -> Step<T>, keys: seq<K>): Result<seq<T>>
  {
    if |keys| == 0 then Ok([])
    else
      match Collect(f, keys[..|keys| - 1])
      case Err(e) => Err(e)
      case Ok(acc) =>
        match f(keys[|keys| - 1])
        case Skip => Ok(acc)
        case Emit(x) => Ok(acc + [x])
        case Fail(e) => Err(e)
  }

  /** The keys whose step does not skip, in order. */
  function Active<K, T>(f: K -> Step<T>, keys: seq<K>): seq<K>
  {
    if |keys| == 0 then []
    else Active(f, keys[..|keys| - 1]) + (if f(keys[|keys| - 1]).Skip? then [] else [keys[|keys| - 1]])
  }

  /** One more step. */
  lemma CollectSnoc<K, T>(f: K -> Step<T>, keys: seq<K>, k: K)
    ensures Collect(f, keys + [k]) ==
      match Collect(f, keys)
      case Err(e) => Err(e)
      case Ok(acc) =>
        match f(k)
        case Skip => Ok(acc)
        case Emit(x) => Ok(acc + [x])
        case Fail(e) => Err(e)
  {
    assert (keys + [k])[..|keys|] == keys;
  }

  /** Once the loop aborts it stays aborted with the same error. */
  lemma {:induction false} CollectErrSticky<K, T>(f: K -> Step<T>, keys: seq<K>, more: seq<K>)
    requires Collect(f, keys).Err?
    ensures Collect(f, keys + more) == Collect(f, keys)
    decreases |more|
  {
    if |more| > 0 {
      var init := more[..|more| - 1];
      CollectErrSticky(f, keys, init);
      assert keys + more == (keys + init) + [more[|more| - 1]];
      CollectSnoc(f, keys + init, more[|more| - 1]);
    } else {
      assert keys + more == keys;
    }
  }

  /** An abort on a prefix of the keys is the outcome of the whole run. */
  lemma ErrBeforeEnd<K, T>(f: K -> Step<T>, keys: seq<K>, all: seq<K>)
    requires |keys| <= |all| && all[..|keys|] == keys && Collect(f, keys).Err?
    ensures Collect(f, all) == Collect(f, keys)
  {
    assert all == keys + all[|keys|..];
    CollectErrSticky(f, keys, all[|keys|..]);
  }

  /** The active keys are exactly the keys whose step does not skip. */
  lemma {:induction false} ActiveExact<K, T>(f: K -> Step<T>, keys: seq<K>)
    ensures forall k :: k in Active(f, keys) <==> k in keys && !f(k).Skip?
  {
    if |keys| > 0 {
      var init := keys[..|keys| - 1];
      ActiveExact(f, init);
      assert keys == init + [keys[|keys| - 1]];
    }
  }

  /** A loop that completes holds one item per active key, in key order. */
  lemma {:induction false} CollectEmits<K, T>(f: K -> Step<T>, keys: seq<K>)
    requires Collect(f, keys).Ok?
    ensures |Collect(f, keys).value| == |Active(f, keys)|
    ensures forall j :: 0 <= j < |Active(f, keys)| ==>
      f(Active(f, keys)[j]) == Emit(Collect(f, keys).value[j])
  {
    if |keys| > 0 {
      CollectEmits(f, keys[..|keys| - 1]);
    }
  }

  /** The loop aborts exactly when the step of some key fails. */
  lemma {:induction false} CollectFailsIff<K, T>(f: K -> Step<T>, keys: seq<K>)
    ensures Collect(f, keys).Err? <==> exists k :: k in keys && f(k).Fail?
  {
    if |keys| > 0 {
      var init := keys[..|keys| - 1];
      var last := keys[|keys| - 1];
      CollectFailsIff(f, init);
      assert keys == init + [last];
      if Collect(f, init).Ok? && f(last).Fail? {
        assert Collect(f, keys).Err?;
      }
    }
  }

  /** With every step skipping, nothing is collected. */
  lemma {:induction false} AllSkipNothingCollected<K, T>(f: K -> Step<T>, keys: seq<K>)
    requires forall k :: k in keys ==> f(k) == Skip
    ensures Collect(f, keys) == Ok([])
  {
    if |keys| > 0 {
      AllSkipNothingCollected(f, keys[..|keys| - 1]);
    }
  }

  // ---------------------------------------------------------------------
  // The loop over all pairs

  /** The connectors the loop visits, J10 then J16. */
  function ConName(c: nat): string { if c == 0 then "J10" else "J16" }

  /** The pairs the loop visits, 1-2, 4-5, 3-6 then 7-8. */
  function PairName(p: nat): string
  {
    if p == 0 then "1-2" else if p == 1 then "4-5" else if p == 2 then "3-6" else "7-8"
  }

  /** The (connector, pair) steps of one LVR, pairs inside connectors, as
      (LVR, connector index, pair index). */
  function LvrKeys(lvr: int): seq<(int, nat, nat)>
  {
    [(lvr, 0, 0), (lvr, 0, 1), (lvr, 0, 2), (lvr, 0, 3), (lvr, 1, 0), (lvr, 1, 1), (lvr, 1, 2), (lvr, 1, 3)]
  }

  /** The steps for LVRs 1 to `n`, in visiting order. */
  function KeysUpTo(n: nat): seq<(int, nat, nat)>
  {
    if n == 0 then [] else KeysUpTo(n - 1) + LvrKeys(n)
  }

  /** Step (`lvr`, `con`, `pair`) of `parse_cavern_sense`: skipped unless
      the pair is used, otherwise the trace of the pair. */
  function TraceStep(df: seq<LayoutRow>, powerKeys: set<string>, key: (int, nat, nat)): Step<SenseLine>
  {
    if SenselineUsed(key.0, ConName(key.1), PairName(key.2), powerKeys) != Some(true) then Skip
    else
      match TraceOne(df, key.0, ConName(key.1), PairName(key.2))
      case Err(e) => Fail(e)
      case Ok(sl) => Emit(sl)
  }

  /** Number of LVRs the loop visits. */
  const LvrCount: nat := 67

  function StepFn(df: seq<LayoutRow>, powerKeys: set<string>): ((int, nat, nat)) -> Step<SenseLine>
  {
    k => TraceStep(df, powerKeys, k)
  }

  /** `parse_cavern_sense` as a whole: LVRs 1 to 67. */
  function ParseCavernSenseSpec(df: seq<LayoutRow>, powerKeys: set<string>): Result<seq<SenseLine>>
  {
    Collect(StepFn(df, powerKeys), KeysUpTo(LvrCount))
  }

  // ---------------------------------------------------------------------
  // Properties of the trace

  lemma {:induction false} KeysLength(n: nat)
    ensures |KeysUpTo(n)| == 8 * n
  {
    if n > 0 {
      KeysLength(n - 1);
    }
  }

  /** The steps for the first `m` LVRs come first. */
  lemma {:induction false} KeysPrefix(m: nat, n: nat)
    requires m <= n
    ensures 8 * m <= |KeysUpTo(n)| && KeysUpTo(n)[..8 * m] == KeysUpTo(m)
    decreases n
  {
    KeysLength(n);
    KeysLength(m);
    if m < n {
      KeysPrefix(m, n - 1);
      KeysLength(n - 1);
      assert KeysUpTo(n) == KeysUpTo(n - 1) + LvrKeys(n);
      assert KeysUpTo(n)[..8 * m] == KeysUpTo(n - 1)[..8 * m];
    }
  }

  /** Where the loops are: the steps done so far are a prefix of all steps. */
  lemma LoopPrefix(lvr: int, j: nat, n: nat)
    requires 1 <= lvr <= n && j <= 8
    ensures var done := KeysUpTo(lvr - 1) + LvrKeys(lvr)[..j];
      |done| <= |KeysUpTo(n)| && KeysUpTo(n)[..|done|] == done
  {
    KeysPrefix(lvr, n);
    KeysLength(lvr - 1);
    assert KeysUpTo(lvr) == KeysUpTo(lvr - 1) + LvrKeys(lvr);
    var done := KeysUpTo(lvr - 1) + LvrKeys(lvr)[..j];
    assert KeysUpTo(lvr)[..|done|] == done;
  }

  /** The loops visit LVR `lvr`, connector `c` and pair `p` next. */
  lemma NextKey(lvr: int, c: nat, p: nat, done: seq<(int, nat, nat)>)
    requires 1 <= lvr && c < 2 && p < 4 && done == KeysUpTo(lvr - 1) + LvrKeys(lvr)[..4 * c + p]
    ensures done + [(lvr, c, p)] == KeysUpTo(lvr - 1) + LvrKeys(lvr)[..4 * c + p + 1]
  {
    LvrKeyAt(lvr, c, p);
    SliceSnoc(KeysUpTo(lvr - 1), LvrKeys(lvr), 4 * c + p);
  }

  lemma LvrKeyAt(lvr: int, c: nat, p: nat)
    requires c < 2 && p < 4
    ensures LvrKeys(lvr)[4 * c + p] == (lvr, c, p)
  {
    var keys := LvrKeys(lvr);
    if c == 0 {
      if p == 0 {} else if p == 1 {} else if p == 2 {} else {}
    } else {
      if p == 0 {} else if p == 1 {} else if p == 2 {} else {}
    }
  }

  lemma SliceSnoc<T>(a: seq<T>, b: seq<T>, j: nat)
    requires j < |b|
    ensures a + b[..j + 1] == a + b[..j] + [b[j]]
  {
    assert b[..j + 1] == b[..j] + [b[j]];
  }

  /** What one step does, for the pair it visits. */
  lemma StepOutcome(df: seq<LayoutRow>, powerKeys: set<string>, key: (int, nat, nat))
    ensures var step, one := StepFn(df, powerKeys)(key), TraceOne(df, key.0, ConName(key.1), PairName(key.2));
      && (step.Skip? <==> SenselineUsed(key.0, ConName(key.1), PairName(key.2), powerKeys) != Some(true))
      && (step.Fail? <==> SenselineUsed(key.0, ConName(key.1), PairName(key.2), powerKeys) == Some(true) && one.Err?)
      && (step.Fail? ==> step.error == one.error)
      && (step.Emit? ==> one == Ok(step.item))
  {
  }

  /** A finished trace holds one sense line per used pair, in visiting
      order, each naming the LVR, connector and pair of its step. */
  lemma TraceEmitsUsedPairs(df: seq<LayoutRow>, powerKeys: set<string>)
    requires ParseCavernSenseSpec(df, powerKeys).Ok?
    ensures var sls, used := ParseCavernSenseSpec(df, powerKeys).value, Active(StepFn(df, powerKeys), KeysUpTo(LvrCount));
      |sls| == |used| &&
      forall j :: 0 <= j < |sls| ==>
        SenselineUsed(used[j].0, ConName(used[j].1), PairName(used[j].2), powerKeys) == Some(true)
        && (sls[j].lvr, sls[j].lvrCon, sls[j].lvrTwistpair) == (IntToString(used[j].0), ConName(used[j].1), PairName(used[j].2))
  {
    var f := StepFn(df, powerKeys);
    CollectEmits(f, KeysUpTo(LvrCount));
    var used := Active(f, KeysUpTo(LvrCount));
    var sls := Collect(f, KeysUpTo(LvrCount)).value;
    forall j | 0 <= j < |used|
      ensures SenselineUsed(used[j].0, ConName(used[j].1), PairName(used[j].2), powerKeys) == Some(true)
      ensures (sls[j].lvr, sls[j].lvrCon, sls[j].lvrTwistpair) == (IntToString(used[j].0), ConName(used[j].1), PairName(used[j].2))
    {
      StepOutcome(df, powerKeys, used[j]);
      TraceOneSound(df, used[j].0, ConName(used[j].1), PairName(used[j].2));
    }
  }

  /** Every used pair is traced: a pair is among the active steps exactly
      when `senseline_used` holds for it. */
  lemma UsedPairsAreTraced(df: seq<LayoutRow>, powerKeys: set<string>, key: (int, nat, nat))
    requires key in KeysUpTo(LvrCount)
    ensures key in Active(StepFn(df, powerKeys), KeysUpTo(LvrCount))
        <==> SenselineUsed(key.0, ConName(key.1), PairName(key.2), powerKeys) == Some(true)
  {
    ActiveExact(StepFn(df, powerKeys), KeysUpTo(LvrCount));
    StepOutcome(df, powerKeys, key);
  }

  /** The parse aborts exactly when some used pair cannot be traced. */
  lemma TraceFailsIff(df: seq<LayoutRow>, powerKeys: set<string>)
    ensures ParseCavernSenseSpec(df, powerKeys).Err? <==>
      exists k :: k in KeysUpTo(LvrCount) && SenselineUsed(k.0, ConName(k.1), PairName(k.2), powerKeys) == Some(true)
        && TraceOne(df, k.0, ConName(k.1), PairName(k.2)).Err?
  {
    var f := StepFn(df, powerKeys);
    CollectFailsIff(f, KeysUpTo(LvrCount));
    forall k | k in KeysUpTo(LvrCount)
      ensures f(k).Fail? <==> SenselineUsed(k.0, ConName(k.1), PairName(k.2), powerKeys) == Some(true) && TraceOne(df, k.0, ConName(k.1), PairName(k.2)).Err?
    {
      StepOutcome(df, powerKeys, k);
    }
  }

  /** No power map, no sense lines. */
  lemma NothingUsedWithoutPower(df: seq<LayoutRow>)
    ensures ParseCavernSenseSpec(df, {}) == Ok([])
  {
    var f := StepFn(df, {});
    forall k | k in KeysUpTo(LvrCount)
      ensures f(k) == Skip
    {
      StepOutcome(df, {}, k);
    }
    AllSkipNothingCollected(f, KeysUpTo(LvrCount));
  }

  /** One more pair traced onto a run that has not aborted. */
  lemma TraceSnoc(df: seq<LayoutRow>, powerKeys: set<string>, done: seq<(int, nat, nat)>,
                  key: (int, nat, nat), sls: seq<SenseLine>)
    requires Collect(StepFn(df, powerKeys), done) == Ok(sls)
    ensures var one := TraceOne(df, key.0, ConName(key.1), PairName(key.2));
      Collect(StepFn(df, powerKeys), done + [key]) ==
        if SenselineUsed(key.0, ConName(key.1), PairName(key.2), powerKeys) != Some(true) then Ok(sls)
        else if one.Err? then Err(one.error)
        else Ok(sls + [one.value])
  {
    CollectSnoc(StepFn(df, powerKeys), done, key);
    StepOutcome(df, powerKeys, key);
  }

  /** `parse_cavern_sense`: LVRs 1 to 67, connectors J10 then J16, pairs
      1-2, 4-5, 3-6, 7-8; each used pair is traced and appended, and the first
      failing trace aborts the whole parse. */
  method ParseCavernSense(df: seq<LayoutRow>, powerKeys: set<string>) returns (r: Result<seq<SenseLine>>)
    ensures r == ParseCavernSenseSpec(df, powerKeys)
  {
    r := TraceLvrs(df, powerKeys, StepFn(df, powerKeys), LvrCount);
  }

  /** The outer loop of `parse_cavern_sense`, over LVRs 1 to `n`. */
  method TraceLvrs(df: seq<LayoutRow>, powerKeys: set<string>, ghost f: ((int, nat, nat)) -> Step<SenseLine>, n: nat)
    returns (r: Result<seq<SenseLine>>)
    requires StepsOf(f, df, powerKeys)
    ensures r == Collect(f, KeysUpTo(n))
  {
    var senselines: seq<SenseLine> := [];
    for lvr := 1 to n + 1
      invariant Collect(f, KeysUpTo(lvr - 1)) == Ok(senselines)
    {
      var next := TraceLvr(df, powerKeys, f, lvr, senselines);
      if next.Err? {
        assert LvrKeys(lvr)[..8] == LvrKeys(lvr);
        LoopPrefix(lvr, 8, n);
        ErrBeforeEnd(f, KeysUpTo(lvr), KeysUpTo(n));
        return next;
      }
      senselines := next.value;
    }
    r := Ok(senselines);
  }

  /** `f` is the loop step of the trace; the trigger keeps the step's
      definition folded until a pair is traced. */
  ghost predicate StepsOf(f: ((int, nat, nat)) -> Step<SenseLine>, df: seq<LayoutRow>, powerKeys: set<string>)
  {
    forall k {:trigger TraceStep(df, powerKeys, k)} :: f(k) == TraceStep(df, powerKeys, k)
  }

  /** The two inner loops of `parse_cavern_sense` for one LVR: the run
      extended by the eight pairs of LVR `lvr`. */
  method TraceLvr(df: seq<LayoutRow>, powerKeys: set<string>, ghost f: ((int, nat, nat)) -> Step<SenseLine>,
                  lvr: int, senselines: seq<SenseLine>)
    returns (r: Result<seq<SenseLine>>)
    requires StepsOf(f, df, powerKeys)
    requires 1 <= lvr && Collect(f, KeysUpTo(lvr - 1)) == Ok(senselines)
    ensures r == Collect(f, KeysUpTo(lvr))
  {
    ghost var done := KeysUpTo(lvr - 1);
    var acc := senselines;
    for c := 0 to 2
      invariant done == KeysUpTo(lvr - 1) + LvrKeys(lvr)[..4 * c]
      invariant Collect(f, done) == Ok(acc)
    {
      for p := 0 to 4
        invariant done == KeysUpTo(lvr - 1) + LvrKeys(lvr)[..4 * c + p]
        invariant Collect(f, done) == Ok(acc)
      {
        NextKey(lvr, c, p, done);
        var next := TracePair(df, powerKeys, f, lvr, c, p, acc, done);
        done := done + [(lvr, c, p)];
        if next.Err? {
          AbortAfter(f, lvr, 4 * c + p + 1, done);
          return next;
        }
        acc := next.value;
      }
    }
    assert LvrKeys(lvr)[..8] == LvrKeys(lvr);
    r := Ok(acc);
  }

  /** An abort on one LVR's pairs is the outcome of the run up to its end. */
  lemma AbortAfter<T>(f: ((int, nat, nat)) -> Step<T>, lvr: int, j: nat, done: seq<(int, nat, nat)>)
    requires 1 <= lvr && j <= 8
    requires done == KeysUpTo(lvr - 1) + LvrKeys(lvr)[..j]
    requires Collect(f, done).Err?
    ensures Collect(f, KeysUpTo(lvr)) == Collect(f, done)
  {
    assert KeysUpTo(lvr) == done + LvrKeys(lvr)[j..];
    CollectErrSticky(f, done, LvrKeys(lvr)[j..]);
  }

  /** The body of the innermost loop: when the pair is used, trace it and
      append its sense line. */
  method TracePair(df: seq<LayoutRow>, powerKeys: set<string>, ghost f: ((int, nat, nat)) -> Step<SenseLine>,
                   lvr: int, c: nat, p: nat, senselines: seq<SenseLine>, ghost done: seq<(int, nat, nat)>)
    returns (r: Result<seq<SenseLine>>)
    requires StepsOf(f, df, powerKeys)
    requires Collect(f, done) == Ok(senselines)
    ensures r == Collect(f, done + [(lvr, c, p)])
  {
    var con, pair := ConName(c), PairName(p);
    CollectSnoc(f, done, (lvr, c, p));
    assert f((lvr, c, p)) == StepFn(df, powerKeys)((lvr, c, p)) == TraceStep(df, powerKeys, (lvr, c, p));
    StepOutcome(df, powerKeys, (lvr, c, p));
    if SenselineUsed(lvr, con, pair, powerKeys) == Some(true) {
      var one := TraceOne(df, lvr, con, pair);
      if one.Err? {
        return Err(one.error);
      }
      return Ok(senselines + [one.value]);
    }
    return Ok(senselines);
  }
}
