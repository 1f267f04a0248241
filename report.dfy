/** The report tables the checker writes out: the population column and the
    ordering with blank separator rows of the mapping tables
    (`add_pop_col`, `count_positronic`, `sort_by_surf_ppp_layer`), and the
    two CCTB test sheets (`organize_cctb_table`,
    `organize_cctb_sense_table`).  A table is a list of rows of string
    cells; a crash of the Python (`int()` of a position that is not a
    number, `[0]` of an empty cell, `lines[0]` of an empty table) is `None`. */
module Report {
  import opened Text
  import opened Lookups
  import opened Lines
  import opened Splitters
  import opened Sorting

  type Row = seq<string>

  /** A cell; "" past the end of the row (only reached by the total sort
      keys, on rows the callers have made wide enough). */
  function Cell(r: Row, i: nat): string
  {
    if i < |r| then r[i] else ""
  }

  /** Every row has a column `i`. */
  predicate Wide(rows: seq<Row>, i: nat)
  {
    forall r :: r in rows ==> i < |r|
  }

  /** The first character of a string as a string (Python `s[:1]`). */
  function Head(s: string): (h: string)
    ensures |h| <= 1 && h <= s
  {
    if s == [] then [] else s[..1]
  }

  /** `int(cell[1:])`: the number of a position name such as "P12". */
  function PosNum(cell: string): Option<int>
  {
    ParseInt(DropFirst(cell, 1))
  }

  /** Every row's position cell has a number. */
  predicate PosParses(rows: seq<Row>, i: nat)
  {
    forall r :: r in rows ==> PosNum(Cell(r, i)).Some?
  }

  /** No row has an empty cell in column `i`. */
  predicate NoEmptyCell(rows: seq<Row>, i: nat)
  {
    forall r :: r in rows ==> Cell(r, i) != ""
  }

  // ---------------------------------------------------------------------
  // Sort keys

  /** `key=lambda r: r[i]`. */
  function ColKey(i: nat): Row -> Key
  {
    (r: Row) => Str(Cell(r, i))
  }

  /** `key=lambda r: int(r[i][1:])` (0 stands for the rows where the Python
      raises, which the callers have ruled out). */
  function PosKey(i: nat): Row -> Key
  {
    (r: Row) => Num(match PosNum(Cell(r, i)) case Some(n) => n case None => 0)
  }

  /** `key=lambda r: r[i][:1]`, which for a non-empty cell is `r[i][0]`. */
  function HeadKey(i: nat): Row -> Key
  {
    (r: Row) => Str(Head(Cell(r, i)))
  }

  /** `key=lambda r: r[i][0].lower()`. */
  function LowerHeadKey(i: nat): Row -> Key
  {
    (r: Row) => Str(Lower(Head(Cell(r, i))))
  }

  /** Rows of a permutation of a table are rows of the table. */
  lemma WidePerm(rows: seq<Row>, ls: seq<Row>, i: nat)
    requires Wide(rows, i) && multiset(ls) == multiset(rows)
    ensures Wide(ls, i)
  {
    forall r | r in ls
      ensures i < |r|
    {
      assert r in multiset(ls);
    }
  }

  // ---------------------------------------------------------------------
  // Building a table row by row

  /** A row per element, in order, or `None` as soon as one cannot be
      built: a loop that appends one row per element and raises on a bad
      one. */
  function MapAll<A, B>(f: A -> Option<B>, xs: seq<A>): (r: Option<seq<B>>)
    ensures r.Some? ==> |r.value| == |xs|
  {
    if xs == [] then Some([])
    else
      match MapAll(f, xs[..|xs| - 1])
      case None => None
      case Some(ys) =>
        match f(xs[|xs| - 1])
        case None => None
        case Some(y) => Some(ys + [y])
  }

  /** The rows exist exactly when every element's row does, and row `i` is
      the row of element `i`. */
  lemma {:induction false} MapAllSpec<A, B>(f: A -> Option<B>, xs: seq<A>)
    ensures MapAll(f, xs).Some? <==> forall i :: 0 <= i < |xs| ==> f(xs[i]).Some?
    ensures MapAll(f, xs).Some? ==> forall i :: 0 <= i < |xs| ==> MapAll(f, xs).value[i] == f(xs[i]).value
  {
    if xs != [] {
      var init := xs[..|xs| - 1];
      MapAllSpec(f, init);
      assert forall i :: 0 <= i < |init| ==> init[i] == xs[i];
    }
  }

  /** The same, element by element. */
  lemma MapAllMembers<A, B>(f: A -> Option<B>, xs: seq<A>)
    ensures MapAll(f, xs).Some? <==> forall x :: x in xs ==> f(x).Some?
  {
    MapAllSpec(f, xs);
    if !MapAll(f, xs).Some? {
      var i :| 0 <= i < |xs| && f(xs[i]).None?;
      assert xs[i] in xs;
    }
  }

  /** A prefix of a list that can be mapped can be mapped: a failure stays a
      failure however many elements follow. */
  lemma {:induction false} MapAllPrefix<A, B>(f: A -> Option<B>, xs: seq<A>, n: nat)
    requires n <= |xs| && MapAll(f, xs).Some?
    ensures MapAll(f, xs[..n]).Some?
  {
    if n < |xs| {
      var init := xs[..|xs| - 1];
      MapAllPrefix(f, init, n);
      assert init[..n] == xs[..n];
    } else {
      assert xs[..n] == xs;
    }
  }

  /** Two lists built in one pass: each element gives a row and whether it
      goes to the first list or the second; `None` as soon as one cannot be
      built. */
  function Partition<A, B>(f: A -> Option<(B, bool)>, xs: seq<A>): (r: Option<(seq<B>, seq<B>)>)
    ensures r.Some? ==> |r.value.0| + |r.value.1| == |xs|
  {
    if xs == [] then Some(([], []))
    else
      match Partition(f, xs[..|xs| - 1])
      case None => None
      case Some(lists) =>
        match f(xs[|xs| - 1])
        case None => None
        case Some(entry) =>
          if entry.1 then Some((lists.0 + [entry.0], lists.1)) else Some((lists.0, lists.1 + [entry.0]))
  }

  /** The lists exist exactly when every element gives a row, and each row
      of each list comes from an element sent to that list. */
  lemma {:induction false} PartitionSpec<A, B>(f: A -> Option<(B, bool)>, xs: seq<A>)
    ensures Partition(f, xs).Some? <==> forall i :: 0 <= i < |xs| ==> f(xs[i]).Some?
    ensures Partition(f, xs).Some? ==>
      (forall y :: y in Partition(f, xs).value.0 ==> exists i :: 0 <= i < |xs| && f(xs[i]) == Some((y, true))) &&
      (forall y :: y in Partition(f, xs).value.1 ==> exists i :: 0 <= i < |xs| && f(xs[i]) == Some((y, false)))
  {
    if xs != [] {
      var init := xs[..|xs| - 1];
      PartitionSpec(f, init);
      assert forall i :: 0 <= i < |init| ==> init[i] == xs[i];
    }
  }

  /** A failure stays a failure however many elements follow. */
  /** One element without a row leaves no lists. */
  lemma {:induction false} PartitionFail<A, B>(f: A -> Option<(B, bool)>, xs: seq<A>, i: nat)
    requires i < |xs| && f(xs[i]).None?
    ensures Partition(f, xs).None?
  {
    if i < |xs| - 1 {
      PartitionFail(f, xs[..|xs| - 1], i);
    }
  }

  /** One more element: its row joins the list its flag names. */
  lemma PartitionSnoc<A, B>(f: A -> Option<(B, bool)>, xs: seq<A>, i: nat, row: B, flag: bool)
    requires i < |xs| && Partition(f, xs[..i]).Some? && f(xs[i]) == Some((row, flag))
    ensures Partition(f, xs[..i + 1]) ==
      var lists := Partition(f, xs[..i]).value;
      if flag then Some((lists.0 + [row], lists.1)) else Some((lists.0, lists.1 + [row]))
  {
    TakeSnoc(xs, i);
  }

  // ---------------------------------------------------------------------
  // count_positronic / add_pop_col

  /** How many rows sit at position `p` and are not splice lines. */
  function Population(rows: seq<Row>, p: string, posInd: nat, lenInd: nat): nat
  {
    if rows == [] then 0
    else
      var l := rows[|rows| - 1];
      Population(rows[..|rows| - 1], p, posInd, lenInd) +
        (if Cell(l, posInd) == p && Cell(l, lenInd) != "splice" then 1 else 0)
  }

  /** Counted rows are rows of the table at that position with a length
      other than "splice": none means a count of 0, and every such row adds
      at least 1. */
  lemma {:induction false} PopulationSpec(rows: seq<Row>, p: string, posInd: nat, lenInd: nat)
    ensures Population(rows, p, posInd, lenInd) <= |rows|
    ensures Population(rows, p, posInd, lenInd) == 0 <==>
      forall i :: 0 <= i < |rows| ==> !(Cell(rows[i], posInd) == p && Cell(rows[i], lenInd) != "splice")
  {
    if rows != [] {
      var init := rows[..|rows| - 1];
      PopulationSpec(init, p, posInd, lenInd);
      assert forall i :: 0 <= i < |init| ==> init[i] == rows[i];
    }
  }

  /** `count_positronic`. */
  method CountPositronic(rows: seq<Row>, p: string, posInd: nat, lenInd: nat) returns (count: nat)
    requires Wide(rows, posInd) && Wide(rows, lenInd)
    ensures count == Population(rows, p, posInd, lenInd)
  {
    count := 0;
    for i := 0 to |rows|
      invariant count == Population(rows[..i], p, posInd, lenInd)
    {
      TakeSnoc(rows, i);
      var l := rows[i];
      if p == l[posInd] && l[lenInd] != "splice" {
        count := count + 1;
      }
    }
    TakeAll(rows);
  }

  /** `add_pop_col`: every row gains, as a last cell, the population of its
      own position. */
  function AddPopCol(rows: seq<Row>, posInd: nat, lenInd: nat): (r: seq<Row>)
    requires Wide(rows, posInd) && Wide(rows, lenInd)
    ensures |r| == |rows|
    ensures forall i :: 0 <= i < |rows| ==>
      |r[i]| == |rows[i]| + 1 && r[i][..|rows[i]|] == rows[i]
  {
    seq(|rows|, i requires 0 <= i < |rows| =>
      rows[i] + [IntToString(Population(rows, rows[i][posInd], posInd, lenInd))])
  }

  /** The new cell of an unspliced row is a positive count, and rows at the
      same position get the same count. */
  lemma PopColCounts(rows: seq<Row>, posInd: nat, lenInd: nat, i: nat, j: nat)
    requires Wide(rows, posInd) && Wide(rows, lenInd)
    requires i < |rows| && j < |rows|
    ensures var r := AddPopCol(rows, posInd, lenInd);
      r[i][|rows[i]|] == IntToString(Population(rows, rows[i][posInd], posInd, lenInd))
    ensures rows[i][lenInd] != "splice" ==> Population(rows, rows[i][posInd], posInd, lenInd) >= 1
    ensures rows[i][posInd] == rows[j][posInd] ==>
      AddPopCol(rows, posInd, lenInd)[i][|rows[i]|] == AddPopCol(rows, posInd, lenInd)[j][|rows[j]|]
  {
    PopulationSpec(rows, rows[i][posInd], posInd, lenInd);
  }

  // ---------------------------------------------------------------------
  // sort_by_surf_ppp_layer

  /** The three stable sorts: by the pins column, then by position number,
      then by the first character of the layer column. */
  function SurfOrder(rows: seq<Row>, pos: nat, pins: nat, layer: nat): seq<Row>
  {
    SortBy(HeadKey(layer), false, SortBy(PosKey(pos), false, SortBy(ColKey(pins), false, rows)))
  }

  /** The order the three sorts produce together. */
  function SurfRank(pos: nat, pins: nat, layer: nat): (Row, Row) -> bool
  {
    ThenBy(HeadKey(layer), false, ThenBy(PosKey(pos), false, ThenBy(ColKey(pins), false, Anything())))
  }

  /** The row of `n` blank cells placed between positions. */
  function Blank(n: nat): (b: Row)
    ensures |b| == n && forall k :: 0 <= k < n ==> b[k] == " "
  {
    seq(n, k => " ")
  }

  /** Row `j` has another position than the row before it (than "P0" for
      the first row). */
  predicate Changed(ls: seq<Row>, pos: nat, j: nat)
    requires j < |ls|
  {
    Cell(ls[j], pos) != (if j == 0 then "P0" else Cell(ls[j - 1], pos))
  }

  /** The indices of the first `n` rows at which the position changes. */
  function ChangesUpTo(ls: seq<Row>, pos: nat, n: nat): (r: seq<nat>)
    requires n <= |ls|
    ensures |r| <= n && forall m :: 0 <= m < |r| ==> r[m] < n
  {
    if n == 0 then []
    else ChangesUpTo(ls, pos, n - 1) + (if Changed(ls, pos, n - 1) then [n - 1] else [])
  }

  /** The first `n` rows with a blank row before every change of position. */
  function SepUpTo(ls: seq<Row>, pos: nat, blank: Row, n: nat): seq<Row>
    requires n <= |ls|
  {
    if n == 0 then []
    else SepUpTo(ls, pos, blank, n - 1) + (if Changed(ls, pos, n - 1) then [blank] else []) + [ls[n - 1]]
  }

  /** `sort_by_surf_ppp_layer`. */
  function SurfPppLayer(rows: seq<Row>, pos: nat, pins: nat, layer: nat): Option<seq<Row>>
    requires Wide(rows, pos) && Wide(rows, pins) && Wide(rows, layer)
  {
    if !PosParses(rows, pos) || !NoEmptyCell(rows, layer) || rows == [] then None
    else
      var ls := SurfOrder(rows, pos, pins, layer);
      Some(SepUpTo(ls, pos, Blank(|ls[0]|), |ls|))
  }

  /** The change indices are increasing, each a change, and every change is
      listed. */
  lemma {:induction false} ChangesSpec(ls: seq<Row>, pos: nat, n: nat)
    requires n <= |ls|
    ensures forall m :: 0 <= m < |ChangesUpTo(ls, pos, n)| ==>
      ChangesUpTo(ls, pos, n)[m] < n && Changed(ls, pos, ChangesUpTo(ls, pos, n)[m])
    ensures forall a, b :: 0 <= a < b < |ChangesUpTo(ls, pos, n)| ==>
      ChangesUpTo(ls, pos, n)[a] < ChangesUpTo(ls, pos, n)[b]
    ensures forall j :: 0 <= j < n && Changed(ls, pos, j) ==> j in ChangesUpTo(ls, pos, n)
  {
    if n > 0 {
      ChangesSpec(ls, pos, n - 1);
    }
  }

  /** Where the position does not change, the rows are copied unchanged. */
  lemma {:induction false} SepRun(ls: seq<Row>, pos: nat, blank: Row, a: nat, b: nat)
    requires a <= b <= |ls|
    requires forall j :: a <= j < b ==> !Changed(ls, pos, j)
    ensures SepUpTo(ls, pos, blank, b) == SepUpTo(ls, pos, blank, a) + ls[a..b]
  {
    if b > a {
      SepRun(ls, pos, blank, a, b - 1);
      assert ls[a..b] == ls[a..b - 1] + [ls[b - 1]];
      AppendAssoc(SepUpTo(ls, pos, blank, a), ls[a..b - 1], [ls[b - 1]]);
    }
  }

  /** The index of the next separator, or the end of the table. */
  function Next(idxs: seq<nat>, k: nat, n: nat): nat
  {
    if k < |idxs| then idxs[k] else n
  }

  /** `idxs` lists, in increasing order, exactly the rows at which the
      position changes. */
  predicate ChangeIndices(ls: seq<Row>, pos: nat, idxs: seq<nat>)
  {
    (forall m :: 0 <= m < |idxs| ==> idxs[m] < |ls| && Changed(ls, pos, idxs[m])) &&
    (forall a, b :: 0 <= a < b < |idxs| ==> idxs[a] < idxs[b]) &&
    (forall j :: 0 <= j < |ls| && Changed(ls, pos, j) ==> j in idxs)
  }

  /** Before the first insertion the table is the separated table up to the
      first change. */
  lemma InsertStart(ls: seq<Row>, pos: nat, blank: Row, idxs: seq<nat>)
    requires ChangeIndices(ls, pos, idxs)
    ensures Next(idxs, 0, |ls|) <= |ls|
    ensures ls == SepUpTo(ls, pos, blank, Next(idxs, 0, |ls|)) + ls[Next(idxs, 0, |ls|)..]
    ensures |SepUpTo(ls, pos, blank, Next(idxs, 0, |ls|))| == Next(idxs, 0, |ls|)
  {
    var J := Next(idxs, 0, |ls|);
    assert forall m :: 0 <= m < |idxs| ==> J <= idxs[m];
    assert forall j :: 0 <= j < J ==> !Changed(ls, pos, j);
    SepRun(ls, pos, blank, 0, J);
    assert ls[0..J] == ls[..J];
  }

  /** Between the `k`-th change and the next one the position stays. */
  lemma NextAfter(ls: seq<Row>, pos: nat, idxs: seq<nat>, k: nat)
    requires ChangeIndices(ls, pos, idxs)
    requires k < |idxs|
    ensures idxs[k] < Next(idxs, k + 1, |ls|) <= |ls|
    ensures forall j :: idxs[k] + 1 <= j < Next(idxs, k + 1, |ls|) ==> !Changed(ls, pos, j)
  {
    var J, J' := idxs[k], Next(idxs, k + 1, |ls|);
    assert forall m :: 0 <= m <= k ==> idxs[m] <= J;
    assert forall m :: k < m < |idxs| ==> J' <= idxs[m];
  }

  /** One insertion of `sort_by_surf_ppp_layer`'s second loop: the blank row
      goes in front of the `k`-th change, and the rows up to the next change
      are then separated. */
  lemma InsertStep(ls: seq<Row>, pos: nat, blank: Row, idxs: seq<nat>, k: nat)
    requires ChangeIndices(ls, pos, idxs)
    requires k < |idxs|
    requires |SepUpTo(ls, pos, blank, idxs[k])| == idxs[k] + k
    ensures idxs[k] < Next(idxs, k + 1, |ls|) <= |ls|
    ensures |SepUpTo(ls, pos, blank, Next(idxs, k + 1, |ls|))| == Next(idxs, k + 1, |ls|) + k + 1
    ensures SepUpTo(ls, pos, blank, Next(idxs, k + 1, |ls|)) + ls[Next(idxs, k + 1, |ls|)..] ==
      SepUpTo(ls, pos, blank, idxs[k]) + [blank] + ls[idxs[k]..]
  {
    NextAfter(ls, pos, idxs, k);
    var J, J' := idxs[k], Next(idxs, k + 1, |ls|);
    var S := SepUpTo(ls, pos, blank, J);
    assert Changed(ls, pos, J);
    assert SepUpTo(ls, pos, blank, J + 1) == S + [blank] + [ls[J]];
    SepRun(ls, pos, blank, J + 1, J');
    SuffixSplit(ls, J, J');
    Regroup(S, [blank], [ls[J]], ls[J + 1..J'], ls[J'..]);
  }

  /** The first loop of `sort_by_surf_ppp_layer`: the indices at which the
      position changes. */
  method FindChanges(ls: seq<Row>, pos: nat) returns (idxs: seq<nat>)
    requires Wide(ls, pos)
    ensures idxs == ChangesUpTo(ls, pos, |ls|)
  {
    idxs := [];
    var prev := "P0";
    for i := 0 to |ls|
      invariant idxs == ChangesUpTo(ls, pos, i)
      invariant prev == if i == 0 then "P0" else Cell(ls[i - 1], pos)
    {
      assert ls[i] in ls;
      var ppp := ls[i][pos];
      if ppp != prev {
        idxs := idxs + [i];
      }
      prev := ppp;
    }
  }

  /** The second loop: the blank row inserted at every listed index, shifted
      by the rows already inserted. */
  method InsertBlanks(ls: seq<Row>, pos: nat, blank: Row, idxs: seq<nat>) returns (out: seq<Row>)
    requires idxs == ChangesUpTo(ls, pos, |ls|)
    ensures out == SepUpTo(ls, pos, blank, |ls|)
  {
    ChangesSpec(ls, pos, |ls|);
    InsertStart(ls, pos, blank, idxs);
    out := ls;
    var offset := 0;
    for k := 0 to |idxs|
      invariant offset == k
      invariant Next(idxs, k, |ls|) <= |ls|
      invariant |SepUpTo(ls, pos, blank, Next(idxs, k, |ls|))| == Next(idxs, k, |ls|) + k
      invariant out == SepUpTo(ls, pos, blank, Next(idxs, k, |ls|)) + ls[Next(idxs, k, |ls|)..]
    {
      var i := idxs[k];
      InsertStep(ls, pos, blank, idxs, k);
      SplitAt(SepUpTo(ls, pos, blank, i), ls[i..]);
      out := out[..i + offset] + [blank] + out[i + offset..];
      offset := offset + 1;
    }
  }

  /** `sort_by_surf_ppp_layer`: sort, then separate the positions. */
  method SortBySurfPppLayer(lines: seq<Row>, pos: nat, pins: nat, layer: nat) returns (r: Option<seq<Row>>)
    requires Wide(lines, pos) && Wide(lines, pins) && Wide(lines, layer)
    ensures r == SurfPppLayer(lines, pos, pins, layer)
  {
    if !PosParses(lines, pos) || !NoEmptyCell(lines, layer) || lines == [] {
      return None;
    }
    var ls := SurfOrder(lines, pos, pins, layer);
    WidePerm(lines, ls, pos);
    var blank := Blank(|ls[0]|);
    var idxs := FindChanges(ls, pos);
    var out := InsertBlanks(ls, pos, blank, idxs);
    r := Some(out);
  }

  /** The rows of a table other than the blank row. */
  function Unblank(rows: seq<Row>, blank: Row): seq<Row>
  {
    if rows == [] then []
    else Unblank(rows[..|rows| - 1], blank) + (if rows[|rows| - 1] == blank then [] else [rows[|rows| - 1]])
  }

  lemma UnblankSnoc(a: seq<Row>, x: Row, blank: Row)
    ensures Unblank(a + [x], blank) == Unblank(a, blank) + (if x == blank then [] else [x])
  {
    assert (a + [x])[..|a|] == a;
  }

  /** A separator followed by a row leaves only the row once unblanked. */
  lemma UnblankSepRow(p: seq<Row>, sep: seq<Row>, x: Row, blank: Row)
    requires sep == [] || sep == [blank]
    ensures Unblank(p + sep + [x], blank) == Unblank(p, blank) + (if x == blank then [] else [x])
  {
    UnblankSnoc(p + sep, x, blank);
    if sep != [] {
      UnblankSnoc(p, blank, blank);
    } else {
      assert p + sep == p;
    }
  }

  /** The separators are the only rows added: without the blank rows, the
      separated table is the sorted table without its blank rows. */
  lemma {:induction false} SepUnblank(ls: seq<Row>, pos: nat, blank: Row, n: nat)
    requires n <= |ls|
    ensures Unblank(SepUpTo(ls, pos, blank, n), blank) == Unblank(ls[..n], blank)
  {
    if n > 0 {
      SepUnblank(ls, pos, blank, n - 1);
      if Changed(ls, pos, n - 1) {
        UnblankSepRow(SepUpTo(ls, pos, blank, n - 1), [blank], ls[n - 1], blank);
      } else {
        UnblankSepRow(SepUpTo(ls, pos, blank, n - 1), [], ls[n - 1], blank);
      }
      TakeSnoc(ls, n - 1);
      UnblankSnoc(ls[..n - 1], ls[n - 1], blank);
    }
  }

  /** What `sort_by_surf_ppp_layer` returns: nothing for an empty table, a
      position that is not a number or an empty layer cell; otherwise the
      rows ordered by layer initial, then position number, then pins (ties
      keep their input order, `SurfOrderStable`), with a blank row before
      each new position and no other row added or lost. */
  lemma SurfPppLayerSpec(rows: seq<Row>, pos: nat, pins: nat, layer: nat)
    requires Wide(rows, pos) && Wide(rows, pins) && Wide(rows, layer)
    ensures SurfPppLayer(rows, pos, pins, layer).Some? <==>
      rows != [] && PosParses(rows, pos) && NoEmptyCell(rows, layer)
    ensures multiset(SurfOrder(rows, pos, pins, layer)) == multiset(rows)
    ensures Chain(SurfRank(pos, pins, layer), SurfOrder(rows, pos, pins, layer))
    ensures SurfPppLayer(rows, pos, pins, layer).Some? ==>
      var ls := SurfOrder(rows, pos, pins, layer);
      Unblank(SurfPppLayer(rows, pos, pins, layer).value, Blank(|ls[0]|)) == Unblank(ls, Blank(|ls[0]|))
  {
    var s1 := SortBy(ColKey(pins), false, rows);
    var s2 := SortBy(PosKey(pos), false, s1);
    SortChain(ColKey(pins), false, Anything(), rows);
    SortChain(PosKey(pos), false, ThenBy(ColKey(pins), false, Anything()), s1);
    SortChain(HeadKey(layer), false, ThenBy(PosKey(pos), false, ThenBy(ColKey(pins), false, Anything())), s2);
    if SurfPppLayer(rows, pos, pins, layer).Some? {
      var ls := SurfOrder(rows, pos, pins, layer);
      SepUnblank(ls, pos, Blank(|ls[0]|), |ls|);
      TakeAll(ls);
    }
  }

  /** The rows whose layer initial, position number and pins are `l`, `n`
      and `c`: one group of rows the three sorts leave tied. */
  function SurfTie(pos: nat, pins: nat, layer: nat, l: Key, n: Key, c: Key): Row -> bool
  {
    (r: Row) => HeadKey(layer)(r) == l && PosKey(pos)(r) == n && ColKey(pins)(r) == c
  }

  /** The three sorts are stable: rows tied on layer initial, position
      number and pins appear in the sorted table in their input order. */
  lemma SurfOrderStable(rows: seq<Row>, pos: nat, pins: nat, layer: nat, l: Key, n: Key, c: Key)
    ensures var tie := SurfTie(pos, pins, layer, l, n, c);
      Filter(tie, SurfOrder(rows, pos, pins, layer)) == Filter(tie, rows)
  {
    var tie := SurfTie(pos, pins, layer, l, n, c);
    forall r | tie(r)
      ensures HeadKey(layer)(r) == l && PosKey(pos)(r) == n && ColKey(pins)(r) == c
    {
    }
    var s1 := SortBy(ColKey(pins), false, rows);
    var s2 := SortBy(PosKey(pos), false, s1);
    SortStable(ColKey(pins), false, tie, rows);
    SortStable(PosKey(pos), false, tie, s1);
    SortStable(HeadKey(layer), false, tie, s2);
  }
}
