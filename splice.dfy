/** Splice consolidation at the end of the cavern-map parse, and its inverse
    used before comparing against sheets that list every spliced channel as
    its own entry.  A splice stub is a line whose C-side length reads
    "splice"; its LVR channel and label are folded into the sibling line (same
    load, PPP position and pin, real length), and the stubs are dropped. */
module Splice {
  import opened Text
  import opened Lines

  predicate IsStub(r: Rec) { r.lengthC == "splice" }

  /** The test applied to every line `t` for a stub `s`: the same line under
      `__eq__`, with a different C-side length. */
  predicate SiblingOf(t: Rec, s: Rec) { SameLine(t, s) && t.lengthC != s.lengthC }

  /** The channel and label of stub `s` appended to line `t`. */
  function Absorb(t: Rec, s: Rec): Rec
  {
    t.(lvrCh := t.lvrCh + " Y " + s.lvrCh, lvrLabel := t.lvrLabel + "   Y   " + s.lvrLabel)
  }

  /** Line `t` after the outer loop has visited the lines `rs` in order: each
      stub it is a sibling of has been absorbed. */
  function Merged(t: Rec, rs: seq<Rec>): Rec
  {
    if rs == [] then t
    else
      var m := Merged(t, rs[..|rs| - 1]);
      var s := rs[|rs| - 1];
      if IsStub(s) && SiblingOf(m, s) then Absorb(m, s) else m
  }

  /** Number of lines of `rs` that are siblings of `s`. */
  function SiblingCount(s: Rec, rs: seq<Rec>): nat
  {
    if rs == [] then 0
    else SiblingCount(s, rs[..|rs| - 1]) + (if SiblingOf(rs[|rs| - 1], s) then 1 else 0)
  }

  /** The stubs among `prefix` that do not have exactly one sibling in `all`:
      each gives a "Splice problem" warning. */
  function Problems(prefix: seq<Rec>, all: seq<Rec>): seq<Rec>
  {
    if prefix == [] then []
    else
      var s := prefix[|prefix| - 1];
      Problems(prefix[..|prefix| - 1], all) + (if IsStub(s) && SiblingCount(s, all) != 1 then [s] else [])
  }

  /** The lines of `prefix` that are not stubs, in order, as they stand once
      every stub of `all` has been absorbed. */
  function Kept(prefix: seq<Rec>, all: seq<Rec>): seq<Rec>
  {
    if prefix == [] then []
    else
      var t := prefix[|prefix| - 1];
      Kept(prefix[..|prefix| - 1], all) + (if IsStub(t) then [] else [Merged(t, all)])
  }

  /** The result of the consolidation. */
  function Consolidated(rs: seq<Rec>): seq<Rec>
  {
    Kept(rs, rs)
  }

  /** The lines of `rs` that are not stubs, in order. */
  function NonStubs(rs: seq<Rec>): seq<Rec>
  {
    if rs == [] then []
    else NonStubs(rs[..|rs| - 1]) + (if IsStub(rs[|rs| - 1]) then [] else [rs[|rs| - 1]])
  }

  /** The stubs `t` is a sibling of, in order. */
  function SiblingStubs(t: Rec, rs: seq<Rec>): seq<Rec>
  {
    if rs == [] then []
    else
      var s := rs[|rs| - 1];
      SiblingStubs(t, rs[..|rs| - 1]) + (if IsStub(s) && SiblingOf(t, s) then [s] else [])
  }

  function ChannelsOfRecs(rs: seq<Rec>): seq<string>
  {
    if rs == [] then [] else ChannelsOfRecs(rs[..|rs| - 1]) + [rs[|rs| - 1].lvrCh]
  }

  function LabelsOfRecs(rs: seq<Rec>): seq<string>
  {
    if rs == [] then [] else LabelsOfRecs(rs[..|rs| - 1]) + [rs[|rs| - 1].lvrLabel]
  }

  // ---------------------------------------------------------------------
  // Properties of the consolidation

  /** Absorbing stubs changes only the LVR channel and label. */
  lemma {:induction false} MergedKeeps(t: Rec, rs: seq<Rec>)
    ensures Merged(t, rs) == t.(lvrCh := Merged(t, rs).lvrCh, lvrLabel := Merged(t, rs).lvrLabel)
  {
    if rs != [] {
      MergedKeeps(t, rs[..|rs| - 1]);
    }
  }

  /** A stub is never anyone's sibling target of itself, so stubs stay as
      they are. */
  lemma {:induction false} StubUnmerged(t: Rec, rs: seq<Rec>)
    requires IsStub(t)
    ensures Merged(t, rs) == t
  {
    if rs != [] {
      StubUnmerged(t, rs[..|rs| - 1]);
    }
  }

  /** A merged line carries its own channel followed by those of its sibling
      stubs, in order, joined by " Y "; likewise the labels with "   Y   ". */
  lemma {:induction false} MergedJoins(t: Rec, rs: seq<Rec>)
    ensures Merged(t, rs).lvrCh == Join(ChannelsOfRecs([t] + SiblingStubs(t, rs)), " Y ")
    ensures Merged(t, rs).lvrLabel == Join(LabelsOfRecs([t] + SiblingStubs(t, rs)), "   Y   ")
  {
    if rs == [] {
      AppendNil([t]);
      assert ChannelsOfRecs([t]) == ChannelsOfRecs([]) + [t.lvrCh];
      assert LabelsOfRecs([t]) == LabelsOfRecs([]) + [t.lvrLabel];
    } else {
      var init, s := rs[..|rs| - 1], rs[|rs| - 1];
      MergedJoins(t, init);
      MergedKeeps(t, init);
      var srcs := [t] + SiblingStubs(t, init);
      if IsStub(s) && SiblingOf(t, s) {
        AppendAssoc([t], SiblingStubs(t, init), [s]);
        SnocPrefix(srcs, s);
        ChannelsOfNonEmpty(srcs);
        LabelsOfNonEmpty(srcs);
        JoinSnoc(ChannelsOfRecs(srcs), s.lvrCh, " Y ");
        JoinSnoc(LabelsOfRecs(srcs), s.lvrLabel, "   Y   ");
      } else {
        AppendNil(SiblingStubs(t, init));
      }
    }
  }

  lemma ChannelsOfNonEmpty(rs: seq<Rec>)
    requires |rs| > 0
    ensures |ChannelsOfRecs(rs)| > 0
  {
  }

  lemma LabelsOfNonEmpty(rs: seq<Rec>)
    requires |rs| > 0
    ensures |LabelsOfRecs(rs)| > 0
  {
  }

  /** The kept lines are the non-stubs, in order, with only their channel and
      label changed. */
  lemma {:induction false} KeptIsNonStubs(prefix: seq<Rec>, all: seq<Rec>)
    ensures |Kept(prefix, all)| == |NonStubs(prefix)|
    ensures forall i :: 0 <= i < |NonStubs(prefix)| ==>
      Kept(prefix, all)[i] == Merged(NonStubs(prefix)[i], all) && !IsStub(NonStubs(prefix)[i])
  {
    if prefix != [] {
      KeptIsNonStubs(prefix[..|prefix| - 1], all);
    }
  }

  /** `NonStubs` drops exactly the stubs. */
  lemma {:induction false} NonStubsMembers(rs: seq<Rec>)
    ensures forall r :: r in NonStubs(rs) <==> r in rs && !IsStub(r)
  {
    if rs != [] {
      NonStubsMembers(rs[..|rs| - 1]);
      TakeSnoc(rs, |rs| - 1);
      TakeAll(rs);
    }
  }

  /** Consolidation keeps every non-stub line, in order, touching only its
      LVR channel and label, and drops every stub. */
  lemma ConsolidatedIsNonStubs(rs: seq<Rec>)
    ensures |Consolidated(rs)| == |NonStubs(rs)|
    ensures forall i :: 0 <= i < |Consolidated(rs)| ==>
      var c, t := Consolidated(rs)[i], NonStubs(rs)[i];
      !IsStub(c) && c == t.(lvrCh := c.lvrCh, lvrLabel := c.lvrLabel)
    ensures forall r :: r in NonStubs(rs) <==> r in rs && !IsStub(r)
  {
    KeptIsNonStubs(rs, rs);
    NonStubsMembers(rs);
    forall i | 0 <= i < |Consolidated(rs)|
      ensures var c, t := Consolidated(rs)[i], NonStubs(rs)[i];
        !IsStub(c) && c == t.(lvrCh := c.lvrCh, lvrLabel := c.lvrLabel)
    {
      MergedKeeps(NonStubs(rs)[i], rs);
    }
  }

  /** Input without stubs passes through unchanged. */
  lemma {:induction false} NoStubsNoChange(rs: seq<Rec>, prefix: seq<Rec>)
    requires forall r :: r in rs ==> !IsStub(r)
    requires forall r :: r in prefix ==> !IsStub(r)
    ensures Kept(prefix, rs) == prefix
    ensures Problems(prefix, rs) == []
  {
    if prefix != [] {
      var init, t := prefix[..|prefix| - 1], prefix[|prefix| - 1];
      NoStubsNoChange(rs, init);
      NoStubMerges(t, rs);
      TakeSnoc(prefix, |prefix| - 1);
      TakeAll(prefix);
    }
  }

  lemma {:induction false} NoStubMerges(t: Rec, rs: seq<Rec>)
    requires forall r :: r in rs ==> !IsStub(r)
    ensures Merged(t, rs) == t
  {
    if rs != [] {
      NoStubMerges(t, rs[..|rs| - 1]);
    }
  }

  /** Consolidation keeps the sibling count of every stub: each stub finds in
      the result the same lines as in the input. */
  lemma {:induction false} SiblingCountKept(s: Rec, prefix: seq<Rec>, all: seq<Rec>)
    requires IsStub(s)
    ensures SiblingCount(s, Kept(prefix, all)) == SiblingCount(s, prefix)
  {
    if prefix != [] {
      var init, t := prefix[..|prefix| - 1], prefix[|prefix| - 1];
      SiblingCountKept(s, init, all);
      var k := Kept(init, all);
      if IsStub(t) {
        AppendNil(k);
      } else {
        SiblingOfMerged(t, all, s);
        SnocPrefix(k, Merged(t, all));
      }
    }
  }

  // ---------------------------------------------------------------------
  // The consolidation loop on the line objects

  /** The line objects of `ls` whose snapshot in `vs` is not a stub. */
  ghost function NonStubLines(ls: seq<Line>, vs: seq<Rec>): seq<Line>
    requires |ls| == |vs|
  {
    if ls == [] then []
    else NonStubLines(ls[..|ls| - 1], vs[..|vs| - 1]) + (if IsStub(vs[|vs| - 1]) then [] else [ls[|ls| - 1]])
  }

  lemma MergedSnoc(t: Rec, rs: seq<Rec>, s: Rec)
    ensures Merged(t, rs + [s]) ==
      if IsStub(s) && SiblingOf(Merged(t, rs), s) then Absorb(Merged(t, rs), s) else Merged(t, rs)
  {
    SnocPrefix(rs, s);
  }

  /** The tail of `parse_cavern`: for every stub, every sibling line absorbs
      its channel and label (in place); then the stubs are filtered out.  A
      stub without exactly one sibling is reported.  The lines are distinct
      objects, as the parse creates each one afresh. */
  method ConsolidateSplices(lines: seq<Line>) returns (combined: seq<Line>, problems: seq<Rec>)
    requires forall i, j :: 0 <= i < j < |lines| ==> lines[i] != lines[j]
    modifies lines
    ensures forall i :: 0 <= i < |lines| ==> lines[i].Val() == Merged(old(Vals(lines))[i], old(Vals(lines)))
    ensures combined == NonStubLines(lines, old(Vals(lines)))
    ensures Vals(combined) == Consolidated(old(Vals(lines)))
    ensures problems == Problems(old(Vals(lines)), old(Vals(lines)))
  {
    ghost var v0 := Vals(lines);
    problems := VisitAll(lines, v0);
    TakeAll(v0);
    MergedAllComplete(v0);
    combined := KeepNonStubs(lines, v0);
    NonStubLinesVals(lines, v0, v0);
  }

  /** The outer loop: every line visited in turn. */
  method VisitAll(lines: seq<Line>, ghost v0: seq<Rec>) returns (problems: seq<Rec>)
    requires forall i, j :: 0 <= i < j < |lines| ==> lines[i] != lines[j]
    requires v0 == Vals(lines)
    modifies lines
    ensures forall j :: 0 <= j < |lines| ==> lines[j].Val() == MergedAll(v0, v0[..|lines|])[j]
    ensures problems == Problems(v0[..|lines|], v0)
  {
    MergedAllNone(v0);
    assert v0[..0] == [];
    problems := [];
    for i := 0 to |lines|
      invariant forall j :: 0 <= j < |lines| ==> lines[j].Val() == MergedAll(v0, v0[..i])[j]
      invariant problems == Problems(v0[..i], v0)
    {
      problems := VisitLine(lines, i, v0, problems);
    }
  }

  lemma ProblemsSnoc(rs: seq<Rec>, i: nat, all: seq<Rec>)
    requires i < |rs|
    ensures Problems(rs[..i + 1], all) ==
      Problems(rs[..i], all) + if IsStub(rs[i]) && SiblingCount(rs[i], all) != 1 then [rs[i]] else []
  {
    TakeSnoc(rs, i);
  }

  /** Every line of `ts` after the stubs of `rs` have been visited. */
  function MergedAll(ts: seq<Rec>, rs: seq<Rec>): (r: seq<Rec>)
    ensures |r| == |ts|
  {
    if ts == [] then [] else MergedAll(ts[..|ts| - 1], rs) + [Merged(ts[|ts| - 1], rs)]
  }

  lemma {:induction false} MergedAllAt(ts: seq<Rec>, rs: seq<Rec>, j: nat)
    requires j < |ts|
    ensures MergedAll(ts, rs)[j] == Merged(ts[j], rs)
  {
    if j < |ts| - 1 {
      MergedAllAt(ts[..|ts| - 1], rs, j);
    }
  }

  /** After the outer loop, every line has absorbed all its sibling stubs
      and kept its C-side length. */
  lemma MergedAllComplete(v0: seq<Rec>)
    ensures forall j :: 0 <= j < |v0| ==>
      MergedAll(v0, v0)[j] == Merged(v0[j], v0) && MergedAll(v0, v0)[j].lengthC == v0[j].lengthC
  {
    forall j | 0 <= j < |v0|
      ensures MergedAll(v0, v0)[j] == Merged(v0[j], v0) && MergedAll(v0, v0)[j].lengthC == v0[j].lengthC
    {
      MergedAllAt(v0, v0, j);
      MergedKeeps(v0[j], v0);
    }
  }

  /** Before the outer loop, nothing has been absorbed. */
  lemma {:induction false} MergedAllNone(ts: seq<Rec>)
    ensures MergedAll(ts, []) == ts
  {
    if ts != [] {
      MergedAllNone(ts[..|ts| - 1]);
    }
  }

  /** One pass of the outer loop: a stub is absorbed by its siblings, and
      reported when it does not have exactly one. */
  method VisitLine(lines: seq<Line>, i: nat, ghost v0: seq<Rec>, problems: seq<Rec>) returns (problems': seq<Rec>)
    requires i < |lines| == |v0|
    requires forall a, b :: 0 <= a < b < |lines| ==> lines[a] != lines[b]
    requires forall j :: 0 <= j < |lines| ==> lines[j].Val() == MergedAll(v0, v0[..i])[j]
    requires problems == Problems(v0[..i], v0)
    modifies lines
    ensures forall j :: 0 <= j < |lines| ==> lines[j].Val() == MergedAll(v0, v0[..i + 1])[j]
    ensures problems' == Problems(v0[..i + 1], v0)
  {
    ProblemsSnoc(v0, i, v0);
    MergedAllAt(v0, v0[..i], i);
    MergedKeeps(v0[i], v0[..i]);
    var cl := lines[i];
    if cl.lengthC == "splice" {
      StubVisit(v0, i);
      var stub := cl.Val();
      var found := SpliceInto(lines, i, MergedAll(v0, v0[..i]), MergedAll(v0, v0[..i + 1]));
      problems' := if found == 0 || found > 1 then problems + [stub] else problems;
    } else {
      PassOverLine(v0, i);
      problems' := problems;
    }
  }

  /** Visiting a line that is not a stub changes nothing. */
  lemma {:induction false} PassOverLine(v0: seq<Rec>, i: nat)
    requires i < |v0| && !IsStub(v0[i])
    ensures MergedAll(v0, v0[..i + 1]) == MergedAll(v0, v0[..i])
  {
    forall j | 0 <= j < |v0|
      ensures MergedAll(v0, v0[..i + 1])[j] == MergedAll(v0, v0[..i])[j]
    {
      MergedAllAt(v0, v0[..i + 1], j);
      MergedAllAt(v0, v0[..i], j);
      TakeSnoc(v0, i);
      MergedSnoc(v0[j], v0[..i], v0[i]);
    }
  }

  /** The second loop of the tail: the lines that are not stubs, in order. */
  method KeepNonStubs(lines: seq<Line>, ghost v0: seq<Rec>) returns (combined: seq<Line>)
    requires |lines| == |v0|
    requires forall j :: 0 <= j < |lines| ==> lines[j].Val().lengthC == v0[j].lengthC
    ensures combined == NonStubLines(lines, v0)
  {
    combined := [];
    for k := 0 to |lines|
      invariant combined == NonStubLines(lines[..k], v0[..k])
    {
      TakeSnoc(lines, k);
      TakeSnoc(v0, k);
      if lines[k].lengthC != "splice" {
        combined := combined + [lines[k]];
      }
    }
    TakeAll(lines);
    TakeAll(v0);
  }

  /** The kept objects hold the kept snapshots. */
  lemma {:induction false} NonStubLinesVals(lines: seq<Line>, v0: seq<Rec>, all: seq<Rec>)
    requires |lines| == |v0|
    requires forall j :: 0 <= j < |lines| ==> lines[j].Val() == Merged(v0[j], all)
    ensures Vals(NonStubLines(lines, v0)) == Kept(v0, all)
  {
    if lines != [] {
      var n := |lines| - 1;
      NonStubLinesVals(lines[..n], v0[..n], all);
      var init := NonStubLines(lines[..n], v0[..n]);
      if !IsStub(v0[n]) {
        SnocPrefix(init, lines[n]);
      }
    }
  }

  /** Line `t` once stub `s` has been visited. */
  function Absorbed(t: Rec, s: Rec): Rec
  {
    if SiblingOf(t, s) then Absorb(t, s) else t
  }

  /** The inner loop for stub `lines[i]`: every sibling absorbs it; returns
      the number of siblings. */
  method SpliceInto(lines: seq<Line>, i: nat, ghost pre: seq<Rec>, ghost post: seq<Rec>) returns (found: nat)
    requires i < |lines| == |pre| == |post|
    requires forall a, b :: 0 <= a < b < |lines| ==> lines[a] != lines[b]
    requires forall j :: 0 <= j < |lines| ==> lines[j].Val() == pre[j]
    requires forall j :: 0 <= j < |lines| ==> post[j] == Absorbed(pre[j], pre[i])
    modifies lines
    ensures forall j :: 0 <= j < |lines| ==> lines[j].Val() == post[j]
    ensures found == SiblingCount(pre[i], pre)
  {
    var cl := lines[i];
    ghost var s := pre[i];
    found := 0;
    for k := 0 to |lines|
      invariant forall j :: 0 <= j < k ==> lines[j].Val() == post[j]
      invariant forall j :: k <= j < |lines| ==> lines[j].Val() == pre[j]
      invariant found == SiblingCount(s, pre[..k])
      invariant cl.Val() == s
    {
      SiblingCountSnoc(s, pre, k);
      var hit := AbsorbIfSibling(lines[k], cl);
      if hit {
        found := found + 1;
      }
    }
    TakeAll(pre);
  }

  /** Visiting stub `v0[i]` in the outer loop is one `Absorbed` step for
      every line, and the stub itself is unchanged. */
  lemma StubVisit(v0: seq<Rec>, i: nat)
    requires i < |v0| && IsStub(v0[i])
    ensures var pre, post := MergedAll(v0, v0[..i]), MergedAll(v0, v0[..i + 1]);
      && pre[i] == v0[i]
      && (forall j :: 0 <= j < |v0| ==> post[j] == Absorbed(pre[j], pre[i]))
      && SiblingCount(pre[i], pre) == SiblingCount(v0[i], v0)
  {
    var pre, post := MergedAll(v0, v0[..i]), MergedAll(v0, v0[..i + 1]);
    MergedAllAt(v0, v0[..i], i);
    StubUnmerged(v0[i], v0[..i]);
    forall j | 0 <= j < |v0|
      ensures post[j] == Absorbed(pre[j], v0[i])
    {
      MergedAllAt(v0, v0[..i], j);
      MergedAllAt(v0, v0[..i + 1], j);
      TakeSnoc(v0, i);
      MergedSnoc(v0[j], v0[..i], v0[i]);
    }
    SiblingCountMergedAll(v0[i], v0, v0[..i]);
  }

  /** Absorbing stubs leaves every sibling count as it was. */
  lemma {:induction false} SiblingCountMergedAll(s: Rec, ts: seq<Rec>, rs: seq<Rec>)
    ensures SiblingCount(s, MergedAll(ts, rs)) == SiblingCount(s, ts)
  {
    if ts != [] {
      var n := |ts| - 1;
      SiblingCountMergedAll(s, ts[..n], rs);
      var m := MergedAll(ts[..n], rs);
      SnocPrefix(m, Merged(ts[n], rs));
      SiblingOfMerged(ts[n], rs, s);
    }
  }

  /** Absorbing stubs does not change whom a line is a sibling of. */
  lemma SiblingOfMerged(t: Rec, rs: seq<Rec>, s: Rec)
    ensures SiblingOf(Merged(t, rs), s) == SiblingOf(t, s)
  {
    MergedKeeps(t, rs);
  }

  lemma SiblingCountSnoc(s: Rec, rs: seq<Rec>, k: nat)
    requires k < |rs|
    ensures SiblingCount(s, rs[..k + 1]) == SiblingCount(s, rs[..k]) + if SiblingOf(rs[k], s) then 1 else 0
  {
    TakeSnoc(rs, k);
  }

  /** One step of the inner loop: `other == cl` and a different C-side
      length, then `other` takes on the channel and label of `cl`. */
  method AbsorbIfSibling(other: Line, cl: Line) returns (hit: bool)
    modifies other
    ensures hit == SiblingOf(old(other.Val()), old(cl.Val()))
    ensures other.Val() == Absorbed(old(other.Val()), old(cl.Val()))
  {
    hit := SameLine(other.Val(), cl.Val()) && other.lengthC != cl.lengthC;
    if hit {
      var ch, lab := cl.lvrCh, cl.lvrLabel;
      other.SetLvr(other.lvr, other.lvrCh + " Y " + ch);
      other.SetLabels(other.pppLabel, other.lvrLabel + "   Y   " + lab);
    }
  }

  // ---------------------------------------------------------------------
  // Un-splicing for the per-channel comparison

  /** One copy per channel: copy `i` carries channel `chs[i]` as an integer
      string and label piece `labs[i]`. */
  function Copies(r: Rec, chs: seq<int>, labs: seq<string>): (out: seq<Rec>)
    requires |chs| <= |labs|
    ensures |out| == |chs|
    ensures forall i :: 0 <= i < |chs| ==> out[i] == r.(lvrCh := IntToString(chs[i]), lvrLabel := labs[i])
  {
    if chs == [] then []
    else Copies(r, chs[..|chs| - 1], labs) + [r.(lvrCh := IntToString(chs[|chs| - 1]), lvrLabel := labs[|chs| - 1])]
  }

  /** The comparison lines of one matched line: its channels split on " Y ",
      each read with `int(float(...))`, its labels split on "   Y   ".  A
      channel that does not parse, or fewer labels than channels, makes the
      Python raise; that is `None`. */
  function Unsplice(r: Rec): Option<seq<Rec>>
  {
    var labs := Split(r.lvrLabel, "   Y   ");
    match Channels(Split(r.lvrCh, " Y "))
    case None => None
    case Some(chs) => if |labs| < |chs| then None else Some(Copies(r, chs, labs))
  }

  /** All comparison lines, in the order of the matched lines. */
  function UnspliceAll(rs: seq<Rec>): Option<seq<Rec>>
  {
    if rs == [] then Some([])
    else
      match UnspliceAll(rs[..|rs| - 1])
      case None => None
      case Some(acc) =>
        match Unsplice(rs[|rs| - 1])
        case None => None
        case Some(cs) => Some(acc + cs)
  }

  /** What un-splicing promises: one copy per channel piece, carrying that
      channel and the label piece at the same place, every other field as in
      the line; and a failure only when a piece does not parse or labels run
      out. */
  lemma UnspliceCopies(r: Rec)
    ensures var pieces, labs := Split(r.lvrCh, " Y "), Split(r.lvrLabel, "   Y   ");
      && (Unsplice(r).Some? <==>
            |pieces| <= |labs| && forall i :: 0 <= i < |pieces| ==> ParseFloatTrunc(pieces[i]).Some?)
      && (Unsplice(r).Some? ==>
            var out := Unsplice(r).value;
            |out| == |pieces| &&
            forall i :: 0 <= i < |out| ==>
              out[i] == r.(lvrCh := IntToString(ParseFloatTrunc(pieces[i]).value), lvrLabel := labs[i]))
  {
  }

  /** Consolidating a line with its stubs and un-splicing it again gives one
      copy per original line (the line itself, then its sibling stubs in
      order), each with its own channel and label, as long as no channel or
      label contains a "Y" and every channel parses. */
  lemma MergeThenUnsplice(t: Rec, rs: seq<Rec>)
    requires var srcs := [t] + SiblingStubs(t, rs);
      forall i :: 0 <= i < |srcs| ==>
        'Y' !in srcs[i].lvrCh && 'Y' !in srcs[i].lvrLabel && ParseFloatTrunc(srcs[i].lvrCh).Some?
    ensures var srcs, m := [t] + SiblingStubs(t, rs), Merged(t, rs);
      Unsplice(m).Some? &&
      |Unsplice(m).value| == |srcs| &&
      forall i :: 0 <= i < |srcs| ==>
        Unsplice(m).value[i] == m.(lvrCh := IntToString(ParseFloatTrunc(srcs[i].lvrCh).value),
                                   lvrLabel := srcs[i].lvrLabel)
  {
    var srcs := [t] + SiblingStubs(t, rs);
    MergedJoins(t, rs);
    RecsFields(srcs);
    UnspliceJoined(Merged(t, rs), ChannelsOfRecs(srcs), LabelsOfRecs(srcs));
  }

  /** A line whose channel and label are joins of equally many pieces, none
      holding a "Y", un-splices into one copy per piece. */
  lemma UnspliceJoined(r: Rec, chs: seq<string>, labs: seq<string>)
    requires |chs| == |labs| > 0
    requires r.lvrCh == Join(chs, " Y ") && r.lvrLabel == Join(labs, "   Y   ")
    requires forall i :: 0 <= i < |chs| ==> 'Y' !in chs[i] && 'Y' !in labs[i] && ParseFloatTrunc(chs[i]).Some?
    ensures Unsplice(r).Some? && |Unsplice(r).value| == |chs|
    ensures forall i :: 0 <= i < |chs| ==>
      Unsplice(r).value[i] == r.(lvrCh := IntToString(ParseFloatTrunc(chs[i]).value), lvrLabel := labs[i])
  {
    assert Marker(" Y ", 1);
    assert Marker("   Y   ", 3);
    SplitJoin(chs, " Y ", 1);
    SplitJoin(labs, "   Y   ", 3);
    UnspliceCopies(r);
  }

  lemma {:induction false} RecsFields(rs: seq<Rec>)
    ensures |ChannelsOfRecs(rs)| == |LabelsOfRecs(rs)| == |rs|
    ensures forall i :: 0 <= i < |rs| ==> ChannelsOfRecs(rs)[i] == rs[i].lvrCh && LabelsOfRecs(rs)[i] == rs[i].lvrLabel
  {
    if rs != [] {
      RecsFields(rs[..|rs| - 1]);
    }
  }

  /** The comparison-list loop: for every matched line, one deep copy per
      channel is appended. */
  method UnspliceLines(rs: seq<Rec>) returns (r: Option<seq<Rec>>)
    ensures r == UnspliceAll(rs)
  {
    var out: seq<Rec> := [];
    for k := 0 to |rs|
      invariant UnspliceAll(rs[..k]) == Some(out)
    {
      TakeSnoc(rs, k);
      var copies := UnspliceLine(rs[k]);
      if copies.None? {
        UnspliceAbort(rs, k);
        return None;
      }
      out := out + copies.value;
    }
    TakeAll(rs);
    return Some(out);
  }

  /** The inner loop for one matched line: one copy per channel piece. */
  method UnspliceLine(line: Rec) returns (r: Option<seq<Rec>>)
    ensures r == Unsplice(line)
  {
    var chs := Split(line.lvrCh, " Y ");
    var labs := Split(line.lvrLabel, "   Y   ");
    ghost var parsed: seq<int> := [];
    var copies: seq<Rec> := [];
    for i := 0 to |chs|
      invariant i <= |labs| && |parsed| == i && copies == Copies(line, parsed, labs)
      invariant forall j :: 0 <= j < i ==> ParseFloatTrunc(chs[j]) == Some(parsed[j])
    {
      var ch := ParseFloatTrunc(chs[i]);
      if ch.None? || i >= |labs| {
        return None;
      }
      ParsedSnoc(chs, i, parsed, ch.value);
      copies := copies + [line.(lvrCh := IntToString(ch.value), lvrLabel := labs[i])];
      parsed := parsed + [ch.value];
    }
    ChannelsOf(chs, parsed);
    return Some(copies);
  }

  /** One line that cannot be un-spliced aborts the whole list. */
  lemma {:induction false} UnspliceAbort(rs: seq<Rec>, k: nat)
    requires k < |rs| && Unsplice(rs[k]).None?
    ensures UnspliceAll(rs).None?
  {
    if k < |rs| - 1 {
      assert rs[..|rs| - 1][k] == rs[k];
      UnspliceAbort(rs[..|rs| - 1], k);
    }
  }
}
