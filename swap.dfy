/** `parse_swap_pos`: the cavern lines as they will be once the positronic
    connectors listed in a swap table have been moved.  For every table row
    in order, every cavern line sitting at the row's old position yields a
    new line at the row's new position, with the same load, pin, LVR,
    lengths and labels.  The newer checker moves only the C-side bottom
    magnet hybrid lines (flex not "n/a") and keeps every other line at its
    old position; the older one moves every line. */
module Swap {
  import opened Text
  import opened Lines

  /** One row of the swap sheet: the "Positronic" and "Swap to" cells, as
      the integers `int(...)` reads from them. */
  datatype SwapRow = SwapRow(from: int, to: int)

  /** The two variants of the swap. */
  datatype Variant = Scoped | Unconditional

  /** A position number as a PPP position name, "P" followed by the number. */
  function PosName(n: int): string
  {
    "P" + IntToString(n)
  }

  /** The lines the newer checker moves: C side, bottom, magnet, with a
      flex. */
  predicate InScope(l: Rec)
  {
    l.x == "C" && l.y == "bot" && l.z == "mag" && l.flex != "n/a"
  }

  /** The position a line at the row's old position is given. */
  function Target(v: Variant, row: SwapRow, l: Rec): string
  {
    if v == Unconditional || InScope(l) then PosName(row.to) else PosName(row.from)
  }

  /** The new line built from cavern line `l` at position `pos`: a fresh
      line with `l`'s identity, then `set_lvr`, `set_length` and
      `set_labels` with `l`'s values. */
  function Moved(l: Rec, pos: string, norm: string -> string): Rec
  {
    var ml := NewRec(l.x, l.y, l.z, l.bp, l.bpCon, l.ibbp2b2, l.flex, l.load, l.msa, pos, l.pppPin);
    var ml1 := ml.(lvr := l.lvr, lvrCh := l.lvrCh);
    var ml2 := ml1.(lengthC := StoredLength(norm, l.lengthC), lengthA := StoredLength(norm, l.lengthA));
    ml2.(pppLabel := l.pppLabel, lvrLabel := l.lvrLabel)
  }

  /** The inner loop for one row: the lines at its old position, in cavern
      order, moved. */
  function RowMoves(v: Variant, row: SwapRow, cavs: seq<Rec>, norm: string -> string): seq<Rec>
  {
    if cavs == [] then []
    else
      var l := cavs[|cavs| - 1];
      RowMoves(v, row, cavs[..|cavs| - 1], norm) +
        (if l.ppp == PosName(row.from) then [Moved(l, Target(v, row, l), norm)] else [])
  }

  /** The whole result: row by row, in table order. */
  function Swapped(v: Variant, rows: seq<SwapRow>, cavs: seq<Rec>, norm: string -> string): seq<Rec>
  {
    if rows == [] then []
    else Swapped(v, rows[..|rows| - 1], cavs, norm) + RowMoves(v, rows[|rows| - 1], cavs, norm)
  }

  // ---------------------------------------------------------------------
  // Properties

  /** A moved line differs from its source only in its position, as long as
      the source's lengths are already stored the way `set_length` stores
      them (true of every parsed cavern line when the normalisation is
      idempotent). */
  lemma MovedKeeps(l: Rec, pos: string, norm: string -> string)
    requires StoredLength(norm, l.lengthC) == l.lengthC && StoredLength(norm, l.lengthA) == l.lengthA
    ensures Moved(l, pos, norm) == l.(ppp := pos)
  {
  }

  /** Under the newer checker an out-of-scope line keeps its position, and
      an in-scope one takes the row's new position; the older checker moves
      every line. */
  lemma TargetScope(v: Variant, row: SwapRow, l: Rec)
    requires l.ppp == PosName(row.from)
    ensures v == Scoped ==> (Target(v, row, l) == if InScope(l) then PosName(row.to) else l.ppp)
    ensures v == Unconditional ==> Target(v, row, l) == PosName(row.to)
  {
  }

  /** Every line of one row's output comes from a cavern line at the row's
      old position, and every such cavern line contributes, in order. */
  lemma {:induction false} RowMovesSpec(v: Variant, row: SwapRow, cavs: seq<Rec>, norm: string -> string)
    ensures |RowMoves(v, row, cavs, norm)| == |Matching(row, cavs)|
    ensures forall k :: 0 <= k < |Matching(row, cavs)| ==>
      var l := cavs[Matching(row, cavs)[k]];
      l.ppp == PosName(row.from) && RowMoves(v, row, cavs, norm)[k] == Moved(l, Target(v, row, l), norm)
  {
    if cavs != [] {
      var init := cavs[..|cavs| - 1];
      RowMovesSpec(v, row, init, norm);
    }
  }

  /** Positions, in increasing order, of the cavern lines at the row's old
      position. */
  function Matching(row: SwapRow, cavs: seq<Rec>): (r: seq<nat>)
    ensures forall k :: 0 <= k < |r| ==> r[k] < |cavs|
  {
    if cavs == [] then []
    else
      Matching(row, cavs[..|cavs| - 1]) +
        (if cavs[|cavs| - 1].ppp == PosName(row.from) then [|cavs| - 1] else [])
  }

  /** `Matching` lists exactly the cavern lines at the old position, each
      once and in order. */
  lemma {:induction false} MatchingSpec(row: SwapRow, cavs: seq<Rec>)
    ensures forall k :: 0 <= k < |Matching(row, cavs)| ==>
      Matching(row, cavs)[k] < |cavs| && cavs[Matching(row, cavs)[k]].ppp == PosName(row.from)
    ensures forall a, b :: 0 <= a < b < |Matching(row, cavs)| ==> Matching(row, cavs)[a] < Matching(row, cavs)[b]
    ensures forall i :: 0 <= i < |cavs| && cavs[i].ppp == PosName(row.from) ==> i in Matching(row, cavs)
  {
    if cavs != [] {
      MatchingSpec(row, cavs[..|cavs| - 1]);
    }
  }

  /** Swaps never cascade: each row is applied to the original positions,
      so the result for two tables in sequence is the two results side by
      side, and a line moved by one row is never picked up by a later one. */
  lemma {:induction false} SwappedAppend(v: Variant, rows1: seq<SwapRow>, rows2: seq<SwapRow>, cavs: seq<Rec>, norm: string -> string)
    ensures Swapped(v, rows1 + rows2, cavs, norm) == Swapped(v, rows1, cavs, norm) + Swapped(v, rows2, cavs, norm)
  {
    if rows2 == [] {
      AppendNil(rows1);
      AppendNil(Swapped(v, rows1, cavs, norm));
    } else {
      var init := rows2[..|rows2| - 1];
      var last := rows2[|rows2| - 1];
      SwappedAppend(v, rows1, init, cavs, norm);
      SnocTake(rows2);
      AppendAssoc(rows1, init, [last]);
      SnocPrefix(rows1 + init, last);
      AppendAssoc(Swapped(v, rows1, cavs, norm), Swapped(v, init, cavs, norm), RowMoves(v, last, cavs, norm));
    }
  }

  /** A cavern line whose position no row lists contributes nothing: every
      output line has the identity of a cavern line at some row's old
      position. */
  lemma {:induction false} SwappedFrom(v: Variant, rows: seq<SwapRow>, cavs: seq<Rec>, norm: string -> string)
    ensures forall m :: m in Swapped(v, rows, cavs, norm) ==>
      exists r, l :: r in rows && l in cavs && l.ppp == PosName(r.from) && m == Moved(l, Target(v, r, l), norm)
  {
    if rows != [] {
      var init, last := rows[..|rows| - 1], rows[|rows| - 1];
      SwappedFrom(v, init, cavs, norm);
      RowMovesFrom(v, last, cavs, norm);
      forall m | m in Swapped(v, rows, cavs, norm)
        ensures exists r, l :: r in rows && l in cavs && l.ppp == PosName(r.from) && m == Moved(l, Target(v, r, l), norm)
      {
        if m in Swapped(v, init, cavs, norm) {
          var r, l :| r in init && l in cavs && l.ppp == PosName(r.from) && m == Moved(l, Target(v, r, l), norm);
          assert r in rows;
        } else {
          assert m in RowMoves(v, last, cavs, norm);
          var l :| l in cavs && l.ppp == PosName(last.from) && m == Moved(l, Target(v, last, l), norm);
          assert last in rows;
        }
      }
    }
  }

  lemma {:induction false} RowMovesFrom(v: Variant, row: SwapRow, cavs: seq<Rec>, norm: string -> string)
    ensures forall m :: m in RowMoves(v, row, cavs, norm) ==>
      exists l :: l in cavs && l.ppp == PosName(row.from) && m == Moved(l, Target(v, row, l), norm)
  {
    if cavs != [] {
      var init := cavs[..|cavs| - 1];
      RowMovesFrom(v, row, init, norm);
      assert forall l :: l in init ==> l in cavs;
    }
  }

  // ---------------------------------------------------------------------
  // The loops

  /** `parse_swap_pos` once the sheet is read: for every row, for every
      cavern line at the row's old position, a new line is appended. */
  method SwapPositions(v: Variant, rows: seq<SwapRow>, cavs: seq<Rec>, norm: string -> string) returns (lines: seq<Rec>)
    ensures lines == Swapped(v, rows, cavs, norm)
  {
    lines := [];
    for i := 0 to |rows|
      invariant lines == Swapped(v, rows[..i], cavs, norm)
    {
      TakeSnoc(rows, i);
      var moved := SwapRow1(v, rows[i], cavs, norm);
      lines := lines + moved;
    }
    TakeAll(rows);
  }

  /** The inner loop for one row. */
  method SwapRow1(v: Variant, row: SwapRow, cavs: seq<Rec>, norm: string -> string) returns (lines: seq<Rec>)
    ensures lines == RowMoves(v, row, cavs, norm)
  {
    var pos := PosName(row.from);
    lines := [];
    for k := 0 to |cavs|
      invariant lines == RowMoves(v, row, cavs[..k], norm)
    {
      TakeSnoc(cavs, k);
      var l := cavs[k];
      var target := pos;
      if v == Unconditional || InScope(l) {
        target := PosName(row.to);
      }
      if l.ppp == pos {
        var ml := NewRec(l.x, l.y, l.z, l.bp, l.bpCon, l.ibbp2b2, l.flex, l.load, l.msa, target, l.pppPin);
        ml := ml.(lvr := l.lvr, lvrCh := l.lvrCh);
        ml := ml.(lengthC := StoredLength(norm, l.lengthC), lengthA := StoredLength(norm, l.lengthA));
        ml := ml.(pppLabel := l.pppLabel, lvrLabel := l.lvrLabel);
        lines := lines + [ml];
      }
    }
    TakeAll(cavs);
  }
}
