/** The CCTB test sheets: `organize_cctb_table` lists the corrected cavern
    lines of one PEPI, one row per power pin, ordered for the bench
    (backplane descending, then flex initial, then PPP position, then pin);
    `organize_cctb_sense_table` lists the sense lines for one PEPI type,
    split into a magnet sheet (LVR 1 to 36) and an IP sheet and ordered by
    PPP coupler.  Every sheet starts with its header row. */
module Cctb {
  import opened Text
  import opened Lookups
  import opened Lines
  import opened Splitters
  import opened Sorting
  import opened Report

  // ---------------------------------------------------------------------
  // organize_cctb_table

  const CctbHeader: Row := ["PPP Label", "Pos. Src", "Pos. Ret", "Backplane",
    "BP Con.", "Flex Name", "4ASIC-group/DCB power", "SBC Label",
    "LVR Logical ID", "LVR ch.", "M/S/A", "Connector on CCTB",
    "Measured Voltage", "Measured Current", "Result", "Comments"]

  /** The (y, z) pair the lines are compared with: the location
      `z_truemir_to_y_z` gives, or the two characters of the "??" it returns
      for a pair it does not know. */
  function PepiYZ(z: string, truemir: string): (string, string)
  {
    match ZTruemirToYZ(z, truemir)
    case YZ(y, zz) => (y, zz)
    case Unknown => ("?", "?")
  }

  /** The test of the first loop: the line sits at (y, z). */
  function AtPepi(y: string, z: string): Rec -> bool
  {
    (l: Rec) => l.y == y && l.z == z
  }

  /** The cells of a line's row, given its return pin and LVR pins. */
  function CctbCells(cl: Rec, ret: string, pins: string): (r: Row)
    ensures |r| == 16 && r[0] == cl.ppp && r[5] == cl.flex
  {
    [cl.ppp, cl.pppPin, ret, cl.bp, cl.bpCon, cl.flex, cl.load, pins,
     cl.lvr, cl.lvrCh, cl.msa, "", "", "", "", ""]
  }

  /** The row of one line; `None` where `ppp_ret_pin` or `get_lvr_pins`
      raises. */
  function CctbRow(cl: Rec): (r: Option<Row>)
    ensures r.Some? ==> |r.value| == 16 && r.value[0] == cl.ppp && r.value[5] == cl.flex
  {
    match PppRetPin(cl.pppPin)
    case None => None
    case Some(ret) =>
      match LvrPins(cl)
      case None => None
      case Some(pins) => Some(CctbCells(cl, ret, pins))
  }

  /** The sort order of the sheet. */
  function CctbOrder(rows: seq<Row>): seq<Row>
  {
    SortBy(ColKey(3), true, SortBy(LowerHeadKey(5), false, SortBy(PosKey(0), false, SortBy(ColKey(1), false, rows))))
  }

  /** Backplane descending, then flex initial (lower-cased), then position
      number, then source pin. */
  function CctbRank(): (Row, Row) -> bool
  {
    ThenBy(ColKey(3), true, ThenBy(LowerHeadKey(5), false, ThenBy(PosKey(0), false, ThenBy(ColKey(1), false, Anything()))))
  }

  /** The sorts and the header, where the rows' keys can be read. */
  function CctbSheet(rows: seq<Row>): Option<seq<Row>>
  {
    if !PosParses(rows, 0) || !NoEmptyCell(rows, 5) then None
    else Some([CctbHeader] + CctbOrder(rows))
  }

  /** `organize_cctb_table`. */
  function CctbTable(cls: seq<Rec>, z: string, truemir: string): Option<seq<Row>>
  {
    var yz := PepiYZ(z, truemir);
    match MapAll(CctbRow, Filter(AtPepi(yz.0, yz.1), cls))
    case None => None
    case Some(rows) => CctbSheet(rows)
  }

  /** A line has a row, a numbered position and a flex name. */
  predicate CctbReady(l: Rec)
  {
    CctbRow(l).Some? && PosNum(l.ppp).Some? && l.flex != ""
  }

  /** The sheet is the header followed by a permutation of the rows, ordered
      by backplane (descending), flex initial, position and pin (ties keep
      their line order, `CctbOrderStable`). */
  lemma CctbSheetSpec(rows: seq<Row>)
    requires CctbSheet(rows).Some?
    ensures var t := CctbSheet(rows).value;
      |t| == |rows| + 1 && t[0] == CctbHeader &&
      multiset(t[1..]) == multiset(rows) && Chain(CctbRank(), t[1..])
  {
    var s1 := SortBy(ColKey(1), false, rows);
    var s2 := SortBy(PosKey(0), false, s1);
    var s3 := SortBy(LowerHeadKey(5), false, s2);
    SortChain(ColKey(1), false, Anything(), rows);
    SortChain(PosKey(0), false, ThenBy(ColKey(1), false, Anything()), s1);
    SortChain(LowerHeadKey(5), false, ThenBy(PosKey(0), false, ThenBy(ColKey(1), false, Anything())), s2);
    SortChain(ColKey(3), true, ThenBy(LowerHeadKey(5), false, ThenBy(PosKey(0), false, ThenBy(ColKey(1), false, Anything()))), s3);
    assert ([CctbHeader] + CctbOrder(rows))[1..] == CctbOrder(rows);
  }

  /** The rows whose backplane, flex initial, position number and pin are
      `b`, `f`, `n` and `p`: one group of rows the four sorts leave tied. */
  function CctbTie(b: Key, f: Key, n: Key, p: Key): Row -> bool
  {
    (r: Row) => ColKey(3)(r) == b && LowerHeadKey(5)(r) == f && PosKey(0)(r) == n && ColKey(1)(r) == p
  }

  /** Each of the four sort keys is the same on all the rows of a tie. */
  lemma CctbTieKeys(b: Key, f: Key, n: Key, p: Key)
    ensures OneKey(CctbTie(b, f, n, p), ColKey(3)) && OneKey(CctbTie(b, f, n, p), LowerHeadKey(5))
    ensures OneKey(CctbTie(b, f, n, p), PosKey(0)) && OneKey(CctbTie(b, f, n, p), ColKey(1))
  {
    var tie := CctbTie(b, f, n, p);
    forall r | tie(r)
      ensures ColKey(3)(r) == b && LowerHeadKey(5)(r) == f && PosKey(0)(r) == n && ColKey(1)(r) == p
    {
    }
  }

  /** The four sorts are stable: rows tied on every key keep their line
      order. */
  lemma CctbOrderStable(rows: seq<Row>, b: Key, f: Key, n: Key, p: Key)
    ensures Filter(CctbTie(b, f, n, p), CctbOrder(rows)) == Filter(CctbTie(b, f, n, p), rows)
  {
    var tie := CctbTie(b, f, n, p);
    CctbTieKeys(b, f, n, p);
    var s1 := SortBy(ColKey(1), false, rows);
    var s2 := SortBy(PosKey(0), false, s1);
    var s3 := SortBy(LowerHeadKey(5), false, s2);
    SortStable(ColKey(1), false, tie, rows);
    SortStable(PosKey(0), false, tie, s1);
    SortStable(LowerHeadKey(5), false, tie, s2);
    SortStable(ColKey(3), true, tie, s3);
  }

  /** The rows' keys can be read exactly when every line has a numbered
      position and a flex name. */
  lemma CctbKeys(ls: seq<Rec>)
    requires MapAll(CctbRow, ls).Some?
    ensures var rows := MapAll(CctbRow, ls).value;
      PosParses(rows, 0) && NoEmptyCell(rows, 5) <==> forall l :: l in ls ==> PosNum(l.ppp).Some? && l.flex != ""
  {
    MapAllSpec(CctbRow, ls);
    var rows := MapAll(CctbRow, ls).value;
    if forall l :: l in ls ==> PosNum(l.ppp).Some? && l.flex != "" {
      forall r | r in rows
        ensures PosNum(Cell(r, 0)).Some? && Cell(r, 5) != ""
      {
        var i :| 0 <= i < |rows| && rows[i] == r;
        assert ls[i] in ls;
      }
    }
    if PosParses(rows, 0) && NoEmptyCell(rows, 5) {
      forall l | l in ls
        ensures PosNum(l.ppp).Some? && l.flex != ""
      {
        var i :| 0 <= i < |ls| && ls[i] == l;
        assert rows[i] in rows;
      }
    }
  }

  /** The sheet exists exactly when every line of the PEPI is ready, and it
      then holds one row per line of the PEPI, the lines at (y, z) and no
      others. */
  lemma CctbTableSpec(cls: seq<Rec>, z: string, truemir: string)
    ensures var yz := PepiYZ(z, truemir);
      CctbTable(cls, z, truemir).Some? <==> forall l :: l in cls && l.y == yz.0 && l.z == yz.1 ==> CctbReady(l)
    ensures var yz := PepiYZ(z, truemir);
      CctbTable(cls, z, truemir).Some? ==>
        var ls := Filter(AtPepi(yz.0, yz.1), cls);
        CctbTable(cls, z, truemir) == CctbSheet(MapAll(CctbRow, ls).value) &&
        |CctbTable(cls, z, truemir).value| == |ls| + 1 &&
        (forall l :: l in ls <==> l in cls && l.y == yz.0 && l.z == yz.1)
  {
    var yz := PepiYZ(z, truemir);
    var ls := Filter(AtPepi(yz.0, yz.1), cls);
    FilterSpec(AtPepi(yz.0, yz.1), cls);
    MapAllMembers(CctbRow, ls);
    if MapAll(CctbRow, ls).Some? {
      CctbKeys(ls);
    }
  }

  /** The first loop of `organize_cctb_table`: the lines of the PEPI. */
  method PickPepi(cls: seq<Rec>, z: string, truemir: string) returns (lines: seq<Rec>)
    ensures lines == Filter(AtPepi(PepiYZ(z, truemir).0, PepiYZ(z, truemir).1), cls)
  {
    ghost var pick := AtPepi(PepiYZ(z, truemir).0, PepiYZ(z, truemir).1);
    lines := [];
    for i := 0 to |cls|
      invariant lines == Filter(pick, cls[..i])
    {
      TakeSnoc(cls, i);
      var yz := PepiYZ(z, truemir);
      var cl := cls[i];
      if cl.y == yz.0 && cl.z == yz.1 {
        lines := lines + [cl];
      }
    }
    TakeAll(cls);
  }

  /** The second loop: one row per line. */
  method CctbRowsOf(lines: seq<Rec>) returns (r: Option<seq<Row>>)
    ensures r == MapAll(CctbRow, lines)
  {
    var rows: seq<Row> := [];
    for i := 0 to |lines|
      invariant MapAll(CctbRow, lines[..i]) == Some(rows)
    {
      TakeSnoc(lines, i);
      var row := CctbRow(lines[i]);
      if row.None? {
        if MapAll(CctbRow, lines).Some? {
          MapAllPrefix(CctbRow, lines, i + 1);
        }
        return None;
      }
      rows := rows + [row.value];
    }
    TakeAll(lines);
    r := Some(rows);
  }

  /** `organize_cctb_table`. */
  method OrganizeCctbTable(cls: seq<Rec>, z: string, truemir: string) returns (r: Option<seq<Row>>)
    ensures r == CctbTable(cls, z, truemir)
  {
    var lines := PickPepi(cls, z, truemir);
    var rows := CctbRowsOf(lines);
    if rows.None? || !PosParses(rows.value, 0) || !NoEmptyCell(rows.value, 5) {
      return None;
    }
    r := Some([CctbHeader] + CctbOrder(rows.value));
  }

  // ---------------------------------------------------------------------
  // organize_cctb_sense_table

  const SenseHeader: Row := ["PPP Label", "PPP Twisted Pair", "Splitter Input",
    "Splitter Output", "LVR Con.", "LVR Number", "LVR ch.",
    "M/S/A", "Connector on CCTB", "Measured Voltage",
    "Result", "Comments"]

  /** The two sheets of one PEPI type. */
  datatype SenseSheets = SenseSheets(mag: seq<Row>, ip: seq<Row>)

  /** The PPP coupler of the chosen type; for any other spelling the Python
      leaves `ppp` unbound and raises at the first line. */
  function SensePpp(sl: SenseLine, truemir: string): Option<string>
  {
    if truemir == "True" then Some(sl.pppTrue)
    else if truemir == "Mirror" then Some(sl.pppMir)
    else None
  }

  /** The cells of a sense line's row, given its coupler and splitter
      labels. */
  function SenseCells(sl: SenseLine, ppp: string, inLab: string, outLab: string): (r: Row)
    ensures |r| == 12 && r[5] == sl.lvr
  {
    [ppp, " " + sl.inTwistpair, inLab, outLab, sl.lvrCon, sl.lvr,
     LvrTwistpairToCh(sl.lvrCon, sl.lvrTwistpair), "", "", "", "", ""]
  }

  /** The row of one sense line; `None` where the Python raises. */
  function SenseRow(sl: SenseLine, truemir: string): (r: Option<Row>)
    ensures r.Some? ==> |r.value| == 12 && r.value[5] == sl.lvr
  {
    match SensePpp(sl, truemir)
    case None => None
    case Some(ppp) =>
      match InSpltrLab(sl)
      case None => None
      case Some(inLab) =>
        match OutSpltrLab(sl)
        case None => None
        case Some(outLab) => Some(SenseCells(sl, ppp, inLab, outLab))
  }

  /** The row of one sense line and whether it goes to the magnet sheet
      (`int(sl.lvr) <= 36`). */
  function SenseEntry(sl: SenseLine, truemir: string): Option<(Row, bool)>
  {
    match SenseRow(sl, truemir)
    case None => None
    case Some(row) =>
      match ParseInt(sl.lvr)
      case None => None
      case Some(n) => Some((row, n <= 36))
  }

  function SenseStep(truemir: string): SenseLine -> Option<(Row, bool)>
  {
    sl => SenseEntry(sl, truemir)
  }

  /** The sort order of a sense sheet. */
  function SenseOrder(rows: seq<Row>): seq<Row>
  {
    SortBy(HeadKey(0), false, SortBy(PosKey(0), false, SortBy(ColKey(1), false, rows)))
  }

  /** Coupler side letter, then coupler number, then twisted pair. */
  function SenseRank(): (Row, Row) -> bool
  {
    ThenBy(HeadKey(0), false, ThenBy(PosKey(0), false, ThenBy(ColKey(1), false, Anything())))
  }

  /** One pass of the loop over the two sheets: sort and add the header. */
  function SenseSheet(rows: seq<Row>): Option<seq<Row>>
  {
    if !PosParses(rows, 0) then None else Some([SenseHeader] + SenseOrder(rows))
  }

  /** `organize_cctb_sense_table`. */
  function SenseTables(sls: seq<SenseLine>, truemir: string): Option<SenseSheets>
  {
    match Partition(SenseStep(truemir), sls)
    case None => None
    case Some(sheets) =>
      match SenseSheet(sheets.0)
      case None => None
      case Some(mag) =>
        match SenseSheet(sheets.1)
        case None => None
        case Some(ip) => Some(SenseSheets(mag, ip))
  }

  /** Every sense line lands on exactly one sheet: the magnet sheet holds
      the rows whose LVR number is at most 36, the IP sheet the others; no
      sheet exists when a line has no row or no LVR number. */
  lemma SenseSplitSpec(sls: seq<SenseLine>, truemir: string)
    ensures Partition(SenseStep(truemir), sls).Some? <==>
      forall i :: 0 <= i < |sls| ==> SenseRow(sls[i], truemir).Some? && ParseInt(sls[i].lvr).Some?
    ensures Partition(SenseStep(truemir), sls).Some? ==>
      var sheets := Partition(SenseStep(truemir), sls).value;
      |sheets.0| + |sheets.1| == |sls| &&
      (forall r :: r in sheets.0 ==> ParseInt(Cell(r, 5)).Some? && ParseInt(Cell(r, 5)).value <= 36) &&
      (forall r :: r in sheets.1 ==> ParseInt(Cell(r, 5)).Some? && ParseInt(Cell(r, 5)).value > 36)
  {
    PartitionSpec(SenseStep(truemir), sls);
    if Partition(SenseStep(truemir), sls).Some? {
      var sheets := Partition(SenseStep(truemir), sls).value;
      forall r | r in sheets.0
        ensures ParseInt(Cell(r, 5)).Some? && ParseInt(Cell(r, 5)).value <= 36
      {
        var i :| 0 <= i < |sls| && SenseStep(truemir)(sls[i]) == Some((r, true));
      }
      forall r | r in sheets.1
        ensures ParseInt(Cell(r, 5)).Some? && ParseInt(Cell(r, 5)).value > 36
      {
        var i :| 0 <= i < |sls| && SenseStep(truemir)(sls[i]) == Some((r, false));
      }
    }
  }

  /** A sheet is its header followed by a permutation of its rows, ordered
      by coupler letter, coupler number and twisted pair (ties keep their
      line order, `SenseOrderStable`). */
  lemma SenseSheetSpec(rows: seq<Row>)
    ensures SenseSheet(rows).Some? <==> PosParses(rows, 0)
    ensures SenseSheet(rows).Some? ==>
      var t := SenseSheet(rows).value;
      |t| == |rows| + 1 && t[0] == SenseHeader &&
      multiset(t[1..]) == multiset(rows) && Chain(SenseRank(), t[1..])
  {
    var s1 := SortBy(ColKey(1), false, rows);
    var s2 := SortBy(PosKey(0), false, s1);
    SortChain(ColKey(1), false, Anything(), rows);
    SortChain(PosKey(0), false, ThenBy(ColKey(1), false, Anything()), s1);
    SortChain(HeadKey(0), false, ThenBy(PosKey(0), false, ThenBy(ColKey(1), false, Anything())), s2);
    assert ([SenseHeader] + SenseOrder(rows))[1..] == SenseOrder(rows);
  }

  /** The rows whose coupler letter, coupler number and pair are `l`, `n`
      and `p`: one group of rows the three sorts leave tied. */
  function SenseTie(l: Key, n: Key, p: Key): Row -> bool
  {
    (r: Row) => HeadKey(0)(r) == l && PosKey(0)(r) == n && ColKey(1)(r) == p
  }

  /** The three sorts are stable: rows tied on every key keep their line
      order. */
  lemma SenseOrderStable(rows: seq<Row>, l: Key, n: Key, p: Key)
    ensures Filter(SenseTie(l, n, p), SenseOrder(rows)) == Filter(SenseTie(l, n, p), rows)
  {
    var tie := SenseTie(l, n, p);
    forall r | tie(r)
      ensures HeadKey(0)(r) == l && PosKey(0)(r) == n && ColKey(1)(r) == p
    {
    }
    var s1 := SortBy(ColKey(1), false, rows);
    var s2 := SortBy(PosKey(0), false, s1);
    SortStable(ColKey(1), false, tie, rows);
    SortStable(PosKey(0), false, tie, s1);
    SortStable(HeadKey(0), false, tie, s2);
  }

  /** The first loop of `organize_cctb_sense_table`: the rows, split
      between the magnet and the IP sheet. */
  method SplitSense(sls: seq<SenseLine>, truemir: string) returns (r: Option<(seq<Row>, seq<Row>)>)
    ensures r == Partition(SenseStep(truemir), sls)
  {
    var rowsMag: seq<Row> := [];
    var rowsIp: seq<Row> := [];
    for i := 0 to |sls|
      invariant Partition(SenseStep(truemir), sls[..i]) == Some((rowsMag, rowsIp))
    {
      TakeSnoc(sls, i);
      var sl := sls[i];
      var row := SenseRow(sl, truemir);
      var n := ParseInt(sl.lvr);
      if row.None? || n.None? {
        assert SenseStep(truemir)(sl).None?;
        PartitionFail(SenseStep(truemir), sls, i);
        return None;
      }
      assert SenseStep(truemir)(sl) == Some((row.value, n.value <= 36));
      PartitionSnoc(SenseStep(truemir), sls, i, row.value, n.value <= 36);
      if n.value <= 36 {
        rowsMag := rowsMag + [row.value];
      } else {
        rowsIp := rowsIp + [row.value];
      }
    }
    TakeAll(sls);
    r := Some((rowsMag, rowsIp));
  }

  /** `organize_cctb_sense_table`: the split, then the loop over the two
      sheets. */
  method OrganizeCctbSenseTable(sls: seq<SenseLine>, truemir: string) returns (r: Option<SenseSheets>)
    ensures r == SenseTables(sls, truemir)
  {
    var split := SplitSense(sls, truemir);
    if split.None? {
      return None;
    }
    var res: seq<seq<Row>> := [];
    var sheets := [split.value.0, split.value.1];
    for k := 0 to 2
      invariant |res| == k
      invariant forall q :: 0 <= q < k ==> SenseSheet(sheets[q]) == Some(res[q])
    {
      var rows := sheets[k];
      if !PosParses(rows, 0) {
        return None;
      }
      res := res + [[SenseHeader] + SenseOrder(rows)];
    }
    r := Some(SenseSheets(res[0], res[1]));
  }
}
