/** The LVR-to-load check: every LVR label piece of every cavern line names
    an LVR source ("<LVR> - <channel>" followed by the source and return
    pins) and, after " | ", the load the cavern map gives it; the check
    compares that load with the one the two LV schematics (IP and magnet)
    give the LVR and lists every disagreement.  An LVR neither schematic
    knows is entered as depopulated, so it disagrees with every load. */
module LoadCheck {
  import opened Text
  import opened Lookups
  import opened Lines

  type Row = seq<string>

  const LoadHeader: Row := ["Mag/IP", "True/Mir", "BP", "M/S/A", "LVR + Src Pin",
    "Cav. Map. Load", "LV Schem. Load"]

  /** The load recorded for an LVR missing from both schematics. */
  const Depopulated: string := "Depopulated in LV Schem.!"

  /** The pieces of a cavern line's LVR label, one per LVR feeding it. */
  function LabelPieces(c: Rec): seq<string>
  {
    Split(c.lvrLabel, "   Y   ")
  }

  /** The LVR of a piece: the text before " | " without its last five
      characters (the pins), " - " written as "_" as in the netlist. */
  function PieceLvr(piece: string): string
  {
    Replace(DropLast(Split(piece, " | ")[0], 5), " - ", "_")
  }

  /** The load of a piece: the text after the first " | "; `None` where the
      piece has none and the Python raises. */
  function PieceLoad(piece: string): Option<string>
  {
    var parts := Split(piece, " | ");
    if |parts| >= 2 then Some(parts[1]) else None
  }

  /** The row written for a disagreement. */
  function ErrorRow(c: Rec, lvr: string, load: string, schem: string): (r: Row)
    ensures |r| == 7 && r[4] == lvr && r[5] == load && r[6] == schem
  {
    [c.z, TrueMirror(c.x, c.y, c.z), c.bp, c.msa, lvr, load, schem]
  }

  // ---------------------------------------------------------------------
  // The check as the Python runs it: a dictionary that grows

  /** The dictionary of loads by LVR, and the rows written so far. */
  datatype LoadState = LoadState(known: map<string, string>, errors: seq<Row>)

  /** One piece: a missing LVR is entered as depopulated, then the loads are
      compared. */
  function CheckPiece(st: LoadState, c: Rec, piece: string): Option<LoadState>
  {
    var lvr := PieceLvr(piece);
    match PieceLoad(piece)
    case None => None
    case Some(load) =>
      var known := if lvr in st.known then st.known else st.known[lvr := Depopulated];
      Some(LoadState(known, st.errors + (if load != known[lvr] then [ErrorRow(c, lvr, load, known[lvr])] else [])))
  }

  /** The inner loop: the pieces of one line, in order. */
  function CheckPieces(st: LoadState, c: Rec, pieces: seq<string>): Option<LoadState>
  {
    if pieces == [] then Some(st)
    else
      match CheckPieces(st, c, pieces[..|pieces| - 1])
      case None => None
      case Some(st') => CheckPiece(st', c, pieces[|pieces| - 1])
  }

  /** The outer loop: the cavern lines, in order. */
  function CheckLines(st: LoadState, cavs: seq<Rec>): Option<LoadState>
  {
    if cavs == [] then Some(st)
    else
      match CheckLines(st, cavs[..|cavs| - 1])
      case None => None
      case Some(st') => CheckPieces(st', cavs[|cavs| - 1], LabelPieces(cavs[|cavs| - 1]))
  }

  /** The check: the IP schematic's loads overridden by the magnet
      schematic's, then every piece of every line; the rows under the
      header. */
  function LvrLoadCheck(cavs: seq<Rec>, ip: map<string, string>, mag: map<string, string>): Option<seq<Row>>
  {
    match CheckLines(LoadState(ip + mag, [LoadHeader]), cavs)
    case None => None
    case Some(st) => Some(st.errors)
  }

  // ---------------------------------------------------------------------
  // The same check without the dictionary

  /** The load the schematics give an LVR. */
  function Expected(m0: map<string, string>, lvr: string): string
  {
    if lvr in m0 then m0[lvr] else Depopulated
  }

  /** The disagreements of one line's pieces. */
  function PieceErrors(m0: map<string, string>, c: Rec, pieces: seq<string>): Option<seq<Row>>
  {
    if pieces == [] then Some([])
    else
      var piece := pieces[|pieces| - 1];
      match PieceErrors(m0, c, pieces[..|pieces| - 1])
      case None => None
      case Some(errs) =>
        match PieceLoad(piece)
        case None => None
        case Some(load) =>
          var lvr := PieceLvr(piece);
          Some(errs + (if load != Expected(m0, lvr) then [ErrorRow(c, lvr, load, Expected(m0, lvr))] else []))
  }

  /** The disagreements of all lines. */
  function Mismatches(m0: map<string, string>, cavs: seq<Rec>): Option<seq<Row>>
  {
    if cavs == [] then Some([])
    else
      match Mismatches(m0, cavs[..|cavs| - 1])
      case None => None
      case Some(errs) =>
        match PieceErrors(m0, cavs[|cavs| - 1], LabelPieces(cavs[|cavs| - 1]))
        case None => None
        case Some(more) => Some(errs + more)
  }

  /** The dictionary agrees with the schematics on every LVR it holds, and
      holds every LVR they know. */
  predicate Consistent(m0: map<string, string>, known: map<string, string>)
  {
    (forall k :: k in m0 ==> k in known) &&
    (forall k :: k in known ==> known[k] == Expected(m0, k))
  }

  lemma CheckPieceSpec(m0: map<string, string>, st: LoadState, c: Rec, piece: string)
    requires Consistent(m0, st.known)
    ensures CheckPiece(st, c, piece).Some? <==> PieceLoad(piece).Some?
    ensures CheckPiece(st, c, piece).Some? ==>
      var st' := CheckPiece(st, c, piece).value;
      var lvr, load := PieceLvr(piece), PieceLoad(piece).value;
      Consistent(m0, st'.known) &&
      st'.errors == st.errors + (if load != Expected(m0, lvr) then [ErrorRow(c, lvr, load, Expected(m0, lvr))] else [])
  {
  }

  lemma {:induction false} CheckPiecesSpec(m0: map<string, string>, st: LoadState, c: Rec, pieces: seq<string>)
    requires Consistent(m0, st.known)
    ensures CheckPieces(st, c, pieces).Some? <==> PieceErrors(m0, c, pieces).Some?
    ensures CheckPieces(st, c, pieces).Some? ==>
      Consistent(m0, CheckPieces(st, c, pieces).value.known) &&
      CheckPieces(st, c, pieces).value.errors == st.errors + PieceErrors(m0, c, pieces).value
  {
    if pieces != [] {
      var init := pieces[..|pieces| - 1];
      CheckPiecesSpec(m0, st, c, init);
      if CheckPieces(st, c, init).Some? {
        var st' := CheckPieces(st, c, init).value;
        CheckPieceSpec(m0, st', c, pieces[|pieces| - 1]);
        if CheckPiece(st', c, pieces[|pieces| - 1]).Some? {
          var e := if PieceLoad(pieces[|pieces| - 1]).value != Expected(m0, PieceLvr(pieces[|pieces| - 1]))
            then [ErrorRow(c, PieceLvr(pieces[|pieces| - 1]), PieceLoad(pieces[|pieces| - 1]).value,
                           Expected(m0, PieceLvr(pieces[|pieces| - 1])))]
            else [];
          AppendAssoc(st.errors, PieceErrors(m0, c, init).value, e);
        }
      }
    }
  }

  lemma {:induction false} CheckLinesSpec(m0: map<string, string>, st: LoadState, cavs: seq<Rec>)
    requires Consistent(m0, st.known)
    ensures CheckLines(st, cavs).Some? <==> Mismatches(m0, cavs).Some?
    ensures CheckLines(st, cavs).Some? ==>
      Consistent(m0, CheckLines(st, cavs).value.known) &&
      CheckLines(st, cavs).value.errors == st.errors + Mismatches(m0, cavs).value
  {
    if cavs != [] {
      var init, c := cavs[..|cavs| - 1], cavs[|cavs| - 1];
      CheckLinesSpec(m0, st, init);
      if CheckLines(st, init).Some? {
        var st' := CheckLines(st, init).value;
        assert CheckLines(st, cavs) == CheckPieces(st', c, LabelPieces(c));
        CheckPiecesSpec(m0, st', c, LabelPieces(c));
        if CheckPieces(st', c, LabelPieces(c)).Some? {
          AppendAssoc(st.errors, Mismatches(m0, init).value, PieceErrors(m0, c, LabelPieces(c)).value);
        }
      }
    }
  }

  /** The growing dictionary changes nothing: the check lists, under the
      header, exactly the pieces whose cavern-map load differs from the
      load the merged schematics give their LVR (or from "depopulated"). */
  lemma LvrLoadCheckStateless(cavs: seq<Rec>, ip: map<string, string>, mag: map<string, string>)
    ensures LvrLoadCheck(cavs, ip, mag).Some? <==> Mismatches(ip + mag, cavs).Some?
    ensures LvrLoadCheck(cavs, ip, mag).Some? ==>
      LvrLoadCheck(cavs, ip, mag).value == [LoadHeader] + Mismatches(ip + mag, cavs).value
  {
    CheckLinesSpec(ip + mag, LoadState(ip + mag, [LoadHeader]), cavs);
  }

  /** Every listed row is a real disagreement: its two loads differ, and the
      second is the schematics' load for its LVR. */
  lemma {:induction false} PieceErrorsReal(m0: map<string, string>, c: Rec, pieces: seq<string>)
    requires PieceErrors(m0, c, pieces).Some?
    ensures forall r :: r in PieceErrors(m0, c, pieces).value ==>
      |r| == 7 && r[5] != r[6] && r[6] == Expected(m0, r[4])
  {
    if pieces != [] {
      PieceErrorsReal(m0, c, pieces[..|pieces| - 1]);
    }
  }

  lemma {:induction false} MismatchesReal(m0: map<string, string>, cavs: seq<Rec>)
    requires Mismatches(m0, cavs).Some?
    ensures forall r :: r in Mismatches(m0, cavs).value ==>
      |r| == 7 && r[5] != r[6] && r[6] == Expected(m0, r[4])
  {
    if cavs != [] {
      var init, c := cavs[..|cavs| - 1], cavs[|cavs| - 1];
      MismatchesReal(m0, init);
      PieceErrorsReal(m0, c, LabelPieces(c));
    }
  }

  /** A magnet-schematic load overrides an IP-schematic one. */
  lemma MergedLoads(ip: map<string, string>, mag: map<string, string>, lvr: string)
    ensures Expected(ip + mag, lvr) ==
      if lvr in mag then mag[lvr] else if lvr in ip then ip[lvr] else Depopulated
  {
  }

  // ---------------------------------------------------------------------
  // The loops

  /** The two loops copying the IP, then the magnet schematic's loads into
      one dictionary. */
  method MergeLoads(ip: map<string, string>, mag: map<string, string>) returns (m: map<string, string>)
    ensures m == ip + mag
  {
    m := map[];
    var rest := ip.Keys;
    while rest != {}
      invariant rest <= ip.Keys
      invariant m.Keys == ip.Keys - rest
      invariant forall k :: k in m ==> m[k] == ip[k]
      decreases rest
    {
      var k :| k in rest;
      m := m[k := ip[k]];
      rest := rest - {k};
    }
    assert m == ip;
    rest := mag.Keys;
    while rest != {}
      invariant rest <= mag.Keys
      invariant m.Keys == ip.Keys + (mag.Keys - rest)
      invariant forall k :: k in m ==> m[k] == if k in mag && k !in rest then mag[k] else ip[k]
      decreases rest
    {
      var k :| k in rest;
      m := m[k := mag[k]];
      rest := rest - {k};
    }
  }

  /** The inner loop over one line's pieces. */
  method CheckLinePieces(known: map<string, string>, errors: seq<Row>, c: Rec)
    returns (r: Option<LoadState>)
    ensures r == CheckPieces(LoadState(known, errors), c, LabelPieces(c))
  {
    var pieces := Split(c.lvrLabel, "   Y   ");
    var st := LoadState(known, errors);
    for i := 0 to |pieces|
      invariant CheckPieces(LoadState(known, errors), c, pieces[..i]) == Some(st)
    {
      TakeSnoc(pieces, i);
      var parts := Split(pieces[i], " | ");
      var lvr := Replace(DropLast(parts[0], 5), " - ", "_");
      if |parts| < 2 {
        CheckPiecesAbort(LoadState(known, errors), c, pieces, i + 1);
        return None;
      }
      var load := parts[1];
      var m := st.known;
      if lvr !in m {
        m := m[lvr := Depopulated];
      }
      var errs := st.errors;
      if load != m[lvr] {
        errs := errs + [ErrorRow(c, lvr, load, m[lvr])];
      }
      assert PieceLoad(pieces[i]) == Some(load);
      assert PieceLvr(pieces[i]) == lvr;
      assert m == if lvr in st.known then st.known else st.known[lvr := Depopulated];
      assert CheckPiece(st, c, pieces[i]).Some?;
      assert CheckPiece(st, c, pieces[i]).value.known == m;
      assert CheckPiece(st, c, pieces[i]).value.errors == errs;
      assert CheckPiece(st, c, pieces[i]) == Some(LoadState(m, errs));
      assert pieces[..i + 1][..i] == pieces[..i];
      st := LoadState(m, errs);
    }
    TakeAll(pieces);
    r := Some(st);
  }

  /** A piece without a load ends the check. */
  lemma {:induction false} CheckPiecesAbort(st: LoadState, c: Rec, pieces: seq<string>, n: nat)
    requires n <= |pieces| && CheckPieces(st, c, pieces[..n]).None?
    ensures CheckPieces(st, c, pieces).None?
    decreases |pieces| - n
  {
    if n < |pieces| {
      TakeSnoc(pieces, n);
      CheckPiecesAbort(st, c, pieces, n + 1);
    } else {
      TakeAll(pieces);
    }
  }

  /** A line whose pieces fail ends the check. */
  lemma {:induction false} CheckLinesAbort(st: LoadState, cavs: seq<Rec>, n: nat)
    requires n <= |cavs| && CheckLines(st, cavs[..n]).None?
    ensures CheckLines(st, cavs).None?
    decreases |cavs| - n
  {
    if n < |cavs| {
      TakeSnoc(cavs, n);
      CheckLinesAbort(st, cavs, n + 1);
    } else {
      TakeAll(cavs);
    }
  }

  /** The LVR-to-load check of the main script, once both schematics are
      parsed into dictionaries. */
  method CheckLvrLoads(cavs: seq<Rec>, ip: map<string, string>, mag: map<string, string>)
    returns (r: Option<seq<Row>>)
    ensures r == LvrLoadCheck(cavs, ip, mag)
  {
    var m := MergeLoads(ip, mag);
    var st := LoadState(m, [LoadHeader]);
    for i := 0 to |cavs|
      invariant CheckLines(LoadState(ip + mag, [LoadHeader]), cavs[..i]) == Some(st)
    {
      TakeSnoc(cavs, i);
      var next := CheckLinePieces(st.known, st.errors, cavs[i]);
      if next.None? {
        CheckLinesAbort(LoadState(ip + mag, [LoadHeader]), cavs, i + 1);
        return None;
      }
      st := next.value;
    }
    TakeAll(cavs);
    r := Some(st.errors);
  }
}
