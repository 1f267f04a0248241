/** The nominal/cavern reconciliation of `cavern_check_fix` and the typo
    check before it.  Every cavern line is compared with every nominal line
    under `equal_minus_ppp`; each nominal line that matches takes the cavern
    line's LVR, channel, lengths and labels (rewriting its PPP label around
    its own position and pins), and the cavern line is paired with the last
    nominal line that matched, or with the all-"na" placeholder.  After a
    position swap the moved lines are paired again under `equal_pepi_ppp`,
    without touching the nominal lines.  The Python dictionaries keyed by
    line objects are lists aligned with the cavern lines, whose entries point
    into the nominal list by index. */
module Matcher {
  import opened Text
  import opened Lookups
  import opened Lines

  /** The comparison that pairs a nominal line with a cavern line: load
      identity in the main pass, PEPI and PPP position after a swap. */
  datatype Criterion = MinusPpp | PepiPpp

  predicate Matches(crit: Criterion, n: Rec, c: Rec)
  {
    match crit
    case MinusPpp => EqualMinusPpp(n, c)
    case PepiPpp => EqualPepiPpp(n, c)
  }

  /** The nominal line a cavern line is paired with: a position in the
      nominal list, or the all-"na" placeholder. */
  datatype NomRef = Nominal(index: nat) | NoMatch

  /** The diagnostics printed for the cavern line at position `cav`. */
  datatype Warning = NotFound(cav: nat) | MoreThanOne(cav: nat) | WrongPpp(cav: nat)

  /** The last nominal line that `c` matches. */
  function LastMatch(crit: Criterion, ns: seq<Rec>, c: Rec): (r: NomRef)
    ensures r.Nominal? ==>
      r.index < |ns| && Matches(crit, ns[r.index], c) &&
      forall k :: r.index < k < |ns| ==> !Matches(crit, ns[k], c)
    ensures r.NoMatch? <==> forall k :: 0 <= k < |ns| ==> !Matches(crit, ns[k], c)
  {
    if ns == [] then NoMatch
    else if Matches(crit, ns[|ns| - 1], c) then Nominal(|ns| - 1)
    else LastMatch(crit, ns[..|ns| - 1], c)
  }

  /** The number of nominal lines `c` matches (`found`). */
  function Count(crit: Criterion, ns: seq<Rec>, c: Rec): nat
  {
    if ns == [] then 0
    else Count(crit, ns[..|ns| - 1], c) + (if Matches(crit, ns[|ns| - 1], c) then 1 else 0)
  }

  /** One more nominal line in the search. */
  lemma SearchSnoc(crit: Criterion, ns: seq<Rec>, k: nat, c: Rec)
    requires k < |ns|
    ensures Count(crit, ns[..k + 1], c) == Count(crit, ns[..k], c) + if Matches(crit, ns[k], c) then 1 else 0
    ensures LastMatch(crit, ns[..k + 1], c) == if Matches(crit, ns[k], c) then Nominal(k) else LastMatch(crit, ns[..k], c)
  {
    TakeSnoc(ns, k);
  }

  /** No match is counted exactly when there is no last match. */
  lemma {:induction false} CountZero(crit: Criterion, ns: seq<Rec>, c: Rec)
    ensures Count(crit, ns, c) == 0 <==> LastMatch(crit, ns, c) == NoMatch
  {
    if ns != [] {
      CountZero(crit, ns[..|ns| - 1], c);
    }
  }

  /** The record a pairing points at. */
  function RefRec(ns: seq<Rec>, ref: NomRef): Rec
    requires ref.Nominal? ==> ref.index < |ns|
  {
    if ref.Nominal? then ns[ref.index] else Placeholder
  }

  /** The warnings for the cavern line `c` at position `i`, matched `found`
      times and paired with `nom`: none found, more than one found, and the
      paired line not `==` to the cavern line (which includes the
      placeholder, unless `c` is all "na" itself). */
  function CavWarnings(i: nat, c: Rec, found: nat, nom: Rec): seq<Warning>
  {
    (if found == 0 then [NotFound(i)] else []) +
    (if found > 1 then [MoreThanOne(i)] else []) +
    (if SameLine(c, nom) then [] else [WrongPpp(i)])
  }

  /** A cavern line that matches no nominal line is reported as not found
      and, unless it is the placeholder itself, as having a wrong PPP. */
  lemma NotFoundWarnings(crit: Criterion, ns: seq<Rec>, c: Rec, i: nat)
    requires LastMatch(crit, ns, c) == NoMatch
    ensures var w := CavWarnings(i, c, Count(crit, ns, c), RefRec(ns, LastMatch(crit, ns, c)));
      NotFound(i) in w && MoreThanOne(i) !in w && (WrongPpp(i) in w <==> !SameLine(c, Placeholder))
  {
    CountZero(crit, ns, c);
  }

  // ---------------------------------------------------------------------
  // Annotating one nominal line

  /** `cav_ppp_label.split(' | ')[1]`: the piece after the first " | ", up to
      the next; a label without " | " makes the indexing raise. */
  function LabelTail(text: string): Option<string>
  {
    var parts := Split(text, " | ");
    if |parts| < 2 then None else Some(parts[1])
  }

  /** What a matching nominal line `n` becomes: the cavern line's LVR and
      channel, its lengths stored through `set_length`, its LVR label, and a
      PPP label made of the nominal position, pin and return pin followed by
      the cavern label's tail.  `None` when the Python raises: the cavern PPP
      label has no " | ", or the nominal pin is not an integer. */
  function Annotate(n: Rec, c: Rec, norm: string -> string): Option<Rec>
  {
    match LabelTail(c.pppLabel)
    case None => None
    case Some(tail) =>
      match PppRetPin(n.pppPin)
      case None => None
      case Some(ret) =>
        Some(n.(lvr := c.lvr, lvrCh := c.lvrCh,
                lengthC := StoredLength(norm, c.lengthC), lengthA := StoredLength(norm, c.lengthA),
                pppLabel := n.ppp + " - " + n.pppPin + "/" + ret + " | " + tail,
                lvrLabel := c.lvrLabel))
  }

  /** Annotating overwrites every annotation and keeps the identity: the
      outcome depends only on the line's identity, so a later match erases
      an earlier one completely. */
  lemma AnnotateOverwrites(n: Rec, m: Rec, c: Rec, norm: string -> string)
    requires SameLine(n, m)
    ensures Annotate(m, c, norm) == Annotate(n, c, norm)
    ensures Annotate(n, c, norm).Some? ==> SameLine(n, Annotate(n, c, norm).value)
  {
  }

  /** The annotation fails exactly on a cavern PPP label without " | " or a
      nominal pin that is not an integer. */
  lemma AnnotateFails(n: Rec, c: Rec, norm: string -> string)
    ensures Annotate(n, c, norm).None? <==>
      |Split(c.pppLabel, " | ")| < 2 || ParseInt(n.pppPin).None?
  {
  }

  /** The rewritten PPP label keeps the cavern label's tail: read back from
      the annotated line it is the same, provided the position, the pin and
      the tail hold no "|". */
  lemma AnnotatedLabelTail(n: Rec, c: Rec, norm: string -> string)
    requires Annotate(n, c, norm).Some?
    requires '|' !in n.ppp && '|' !in n.pppPin && '|' !in LabelTail(c.pppLabel).value
    ensures LabelTail(Annotate(n, c, norm).value.pppLabel) == LabelTail(c.pppLabel)
  {
    var tail := LabelTail(c.pppLabel).value;
    var ret := PppRetPin(n.pppPin).value;
    var src := ParseInt(n.pppPin).value;
    var head := n.ppp + " - " + n.pppPin + "/" + ret;
    IntToStringChars(src + 8, '|');
    assert '|' !in head;
    assert Marker(" | ", 1);
    SplitJoin([head, tail], " | ", 1);
    assert Join([head, tail], " | ") == head + " | " + tail;
  }

  /** One nominal line in the inner loop for cavern line `c`. */
  function AnnotateIf(n: Rec, c: Rec, norm: string -> string): Option<Rec>
  {
    if EqualMinusPpp(n, c) then Annotate(n, c, norm) else Some(n)
  }

  /** The whole inner loop for cavern line `c`; `None` if any annotation
      raises. */
  function Pass(ns: seq<Rec>, c: Rec, norm: string -> string): (r: Option<seq<Rec>>)
    ensures r.Some? <==> forall j :: 0 <= j < |ns| ==> AnnotateIf(ns[j], c, norm).Some?
    ensures r.Some? ==>
      |r.value| == |ns| && forall j :: 0 <= j < |ns| ==> r.value[j] == AnnotateIf(ns[j], c, norm).value
  {
    if ns == [] then Some([])
    else
      match Pass(ns[..|ns| - 1], c, norm)
      case None => None
      case Some(init) =>
        match AnnotateIf(ns[|ns| - 1], c, norm)
        case None => None
        case Some(last) => Some(init + [last])
  }

  // ---------------------------------------------------------------------
  // The outer loop

  /** The state after some cavern lines: the nominal lines as annotated so
      far, the pairing of each cavern line, and the warnings. */
  datatype Matching = Matching(noms: seq<Rec>, refs: seq<NomRef>, warnings: seq<Warning>)

  /** The outer loop over the cavern lines `cavs`; `None` if it raises. */
  function MatchAll(ns: seq<Rec>, cavs: seq<Rec>, norm: string -> string): (r: Option<Matching>)
    ensures r.Some? ==> |r.value.noms| == |ns| && |r.value.refs| == |cavs|
  {
    if cavs == [] then Some(Matching(ns, [], []))
    else
      match MatchAll(ns, cavs[..|cavs| - 1], norm)
      case None => None
      case Some(m) => Step(m, cavs[|cavs| - 1], |cavs| - 1, norm)
  }

  /** One pass of the outer loop, for cavern line `c` at position `i`. */
  function Step(m: Matching, c: Rec, i: nat, norm: string -> string): Option<Matching>
  {
    match Pass(m.noms, c, norm)
    case None => None
    case Some(ns) =>
      var ref := LastMatch(MinusPpp, m.noms, c);
      Some(Matching(ns, m.refs + [ref],
                    m.warnings + CavWarnings(i, c, Count(MinusPpp, m.noms, c), RefRec(m.noms, ref))))
  }

  /** Pairings computed directly against the nominal lines as given. */
  function RefsOf(crit: Criterion, ns: seq<Rec>, cavs: seq<Rec>): (r: seq<NomRef>)
    ensures |r| == |cavs|
  {
    if cavs == [] then [] else RefsOf(crit, ns, cavs[..|cavs| - 1]) + [LastMatch(crit, ns, cavs[|cavs| - 1])]
  }

  /** Warnings computed directly against the nominal lines as given. */
  function WarningsOf(crit: Criterion, ns: seq<Rec>, cavs: seq<Rec>): seq<Warning>
  {
    if cavs == [] then []
    else
      var c := cavs[|cavs| - 1];
      WarningsOf(crit, ns, cavs[..|cavs| - 1]) +
        CavWarnings(|cavs| - 1, c, Count(crit, ns, c), RefRec(ns, LastMatch(crit, ns, c)))
  }

  /** The last cavern line that nominal line `n` matches. */
  function LastCav(n: Rec, cavs: seq<Rec>): (r: Option<nat>)
    ensures r.Some? ==>
      r.value < |cavs| && EqualMinusPpp(n, cavs[r.value]) &&
      forall k :: r.value < k < |cavs| ==> !EqualMinusPpp(n, cavs[k])
    ensures r.None? <==> forall k :: 0 <= k < |cavs| ==> !EqualMinusPpp(n, cavs[k])
  {
    if cavs == [] then None
    else if EqualMinusPpp(n, cavs[|cavs| - 1]) then Some(|cavs| - 1)
    else LastCav(n, cavs[..|cavs| - 1])
  }

  /** Nominal line `n` at the end of the matcher: annotated by the last
      cavern line it matches (later matches overwrite earlier ones), or as
      it was. */
  predicate FinalIs(n: Rec, cavs: seq<Rec>, norm: string -> string, r: Rec)
  {
    match LastCav(n, cavs)
    case None => r == n
    case Some(i) => Annotate(n, cavs[i], norm) == Some(r)
  }

  /** Every cavern line can annotate every nominal line it matches. */
  predicate Annotatable(ns: seq<Rec>, cavs: seq<Rec>, norm: string -> string)
  {
    forall i, j :: 0 <= i < |cavs| && 0 <= j < |ns| && EqualMinusPpp(ns[j], cavs[i]) ==>
      Annotate(ns[j], cavs[i], norm).Some?
  }

  /** The matcher fails exactly when some matching pair cannot be
      annotated; otherwise every nominal line ends up annotated by the last
      cavern line it matches (later matches overwrite earlier ones), or as it
      was when it matches none. */
  lemma {:induction false} MatchAllFinal(ns: seq<Rec>, cavs: seq<Rec>, norm: string -> string)
    ensures MatchAll(ns, cavs, norm).Some? <==> Annotatable(ns, cavs, norm)
    ensures MatchAll(ns, cavs, norm).Some? ==>
      var m := MatchAll(ns, cavs, norm).value;
      |m.noms| == |ns| && forall j :: 0 <= j < |ns| ==> FinalIs(ns[j], cavs, norm, m.noms[j])
  {
    if cavs != [] {
      var init, c := cavs[..|cavs| - 1], cavs[|cavs| - 1];
      MatchAllFinal(ns, init, norm);
      SnocTake(cavs);
      AnnotatableSnoc(ns, init, c, norm);
      var prev := MatchAll(ns, init, norm);
      if prev.Some? {
        StepFinal(ns, init, c, norm, prev.value);
      }
    }
  }

  /** One pass of the outer loop carries the final states one cavern line
      further. */
  lemma StepFinal(ns: seq<Rec>, init: seq<Rec>, c: Rec, norm: string -> string, m: Matching)
    requires |m.noms| == |ns| && forall j :: 0 <= j < |ns| ==> FinalIs(ns[j], init, norm, m.noms[j])
    ensures Step(m, c, |init|, norm).Some? <==>
      forall j :: 0 <= j < |ns| && EqualMinusPpp(ns[j], c) ==> Annotate(ns[j], c, norm).Some?
    ensures Step(m, c, |init|, norm).Some? ==>
      var m' := Step(m, c, |init|, norm).value;
      |m'.noms| == |ns| && forall j :: 0 <= j < |ns| ==> FinalIs(ns[j], init + [c], norm, m'.noms[j])
  {
    FinalsIds(ns, init, norm, m.noms);
    StepOk(ns, m, c, |init|, norm);
    if Step(m, c, |init|, norm).Some? {
      var m' := Step(m, c, |init|, norm).value;
      StepNoms(m, c, |init|, norm);
      forall j | 0 <= j < |ns| ensures FinalIs(ns[j], init + [c], norm, m'.noms[j]) {
        FinalSnoc(ns[j], init, c, norm, m.noms[j], m'.noms[j]);
      }
    }
  }

  /** Each cavern line is paired with the last nominal line it matches, and
      the warnings are those computed against the nominal lines as given:
      the annotations written along the way never change a pairing. */
  lemma {:induction false} MatchAllRefs(ns: seq<Rec>, cavs: seq<Rec>, norm: string -> string)
    ensures MatchAll(ns, cavs, norm).Some? ==>
      MatchAll(ns, cavs, norm).value.refs == RefsOf(MinusPpp, ns, cavs) &&
      MatchAll(ns, cavs, norm).value.warnings == WarningsOf(MinusPpp, ns, cavs)
  {
    if cavs != [] {
      var init, c := cavs[..|cavs| - 1], cavs[|cavs| - 1];
      MatchAllRefs(ns, init, norm);
      MatchAllFinal(ns, init, norm);
      SnocTake(cavs);
      var prev := MatchAll(ns, init, norm);
      if prev.Some? && Step(prev.value, c, |init|, norm).Some? {
        StepRefsSnoc(ns, init, c, norm, prev.value);
      }
    }
  }

  lemma StepRefsSnoc(ns: seq<Rec>, init: seq<Rec>, c: Rec, norm: string -> string, m: Matching)
    requires |m.noms| == |ns| && forall j :: 0 <= j < |ns| ==> FinalIs(ns[j], init, norm, m.noms[j])
    requires m.refs == RefsOf(MinusPpp, ns, init) && m.warnings == WarningsOf(MinusPpp, ns, init)
    requires Step(m, c, |init|, norm).Some?
    ensures Step(m, c, |init|, norm).value.refs == RefsOf(MinusPpp, ns, init + [c])
    ensures Step(m, c, |init|, norm).value.warnings == WarningsOf(MinusPpp, ns, init + [c])
  {
    FinalsIds(ns, init, norm, m.noms);
    StepRefs(ns, m, c, |init|, norm);
    SnocPrefix(init, c);
  }

  /** A final state keeps the nominal line's identity. */
  lemma FinalIds(n: Rec, cavs: seq<Rec>, norm: string -> string, r: Rec)
    requires FinalIs(n, cavs, norm, r)
    ensures SameLine(n, r)
  {
    var last := LastCav(n, cavs);
    if last.Some? {
      AnnotateOverwrites(n, n, cavs[last.value], norm);
    }
  }

  lemma FinalsIds(ns: seq<Rec>, cavs: seq<Rec>, norm: string -> string, rs: seq<Rec>)
    requires |rs| == |ns| && forall j :: 0 <= j < |ns| ==> FinalIs(ns[j], cavs, norm, rs[j])
    ensures forall j :: 0 <= j < |ns| ==> SameLine(ns[j], rs[j])
  {
    forall j | 0 <= j < |ns| ensures SameLine(ns[j], rs[j]) {
      FinalIds(ns[j], cavs, norm, rs[j]);
    }
  }

  /** One more cavern line: the final state moves on exactly when it matches. */
  lemma FinalSnoc(n: Rec, cavs: seq<Rec>, c: Rec, norm: string -> string, r: Rec, r': Rec)
    requires FinalIs(n, cavs, norm, r)
    requires Some(r') == AnnotateIf(r, c, norm)
    ensures FinalIs(n, cavs + [c], norm, r')
  {
    SnocPrefix(cavs, c);
    FinalIds(n, cavs, norm, r);
    AnnotateOverwrites(n, r, c, norm);
  }

  /** Whether a step succeeds, stated against the nominal lines as given. */
  lemma StepOk(ns: seq<Rec>, m: Matching, c: Rec, i: nat, norm: string -> string)
    requires |m.noms| == |ns| && forall j :: 0 <= j < |ns| ==> SameLine(ns[j], m.noms[j])
    ensures Step(m, c, i, norm).Some? <==>
      forall j :: 0 <= j < |ns| && EqualMinusPpp(ns[j], c) ==> Annotate(ns[j], c, norm).Some?
  {
    forall j | 0 <= j < |ns|
      ensures Annotate(m.noms[j], c, norm) == Annotate(ns[j], c, norm)
    {
      AnnotateOverwrites(ns[j], m.noms[j], c, norm);
    }
  }

  /** A successful step annotates each matching nominal line. */
  lemma StepNoms(m: Matching, c: Rec, i: nat, norm: string -> string)
    requires Step(m, c, i, norm).Some?
    ensures |Step(m, c, i, norm).value.noms| == |m.noms|
    ensures forall j :: 0 <= j < |m.noms| ==>
      Some(Step(m, c, i, norm).value.noms[j]) == AnnotateIf(m.noms[j], c, norm)
  {
  }

  /** A successful step pairs and warns as if against the nominal lines as
      given. */
  lemma StepRefs(ns: seq<Rec>, m: Matching, c: Rec, i: nat, norm: string -> string)
    requires |m.noms| == |ns| && forall j :: 0 <= j < |ns| ==> SameLine(ns[j], m.noms[j])
    requires Step(m, c, i, norm).Some?
    ensures Step(m, c, i, norm).value.refs == m.refs + [LastMatch(MinusPpp, ns, c)]
    ensures Step(m, c, i, norm).value.warnings ==
      m.warnings + CavWarnings(i, c, Count(MinusPpp, ns, c), RefRec(ns, LastMatch(MinusPpp, ns, c)))
  {
    LastMatchIds(ns, m.noms, c);
  }

  /** Pairing and counting look only at identity fields. */
  lemma {:induction false} LastMatchIds(ns: seq<Rec>, ms: seq<Rec>, c: Rec)
    requires |ms| == |ns| && forall j :: 0 <= j < |ns| ==> SameLine(ns[j], ms[j])
    ensures LastMatch(MinusPpp, ms, c) == LastMatch(MinusPpp, ns, c)
    ensures Count(MinusPpp, ms, c) == Count(MinusPpp, ns, c)
    ensures SameLine(RefRec(ms, LastMatch(MinusPpp, ns, c)), RefRec(ns, LastMatch(MinusPpp, ns, c)))
  {
    if ns != [] {
      LastMatchIds(ns[..|ns| - 1], ms[..|ms| - 1], c);
    }
  }

  /** The failure condition grows by the pairs of the new cavern line. */
  lemma AnnotatableSnoc(ns: seq<Rec>, cavs: seq<Rec>, c: Rec, norm: string -> string)
    ensures Annotatable(ns, cavs + [c], norm) <==>
      Annotatable(ns, cavs, norm) &&
      forall j :: 0 <= j < |ns| && EqualMinusPpp(ns[j], c) ==> Annotate(ns[j], c, norm).Some?
  {
    assert forall i :: 0 <= i < |cavs| ==> (cavs + [c])[i] == cavs[i];
    assert (cavs + [c])[|cavs|] == c;
  }

  // ---------------------------------------------------------------------
  // The matcher loops on the nominal line objects

  /** The body of the inner loop for a matching nominal line `nl`: LVR and
      channel, lengths, then the two labels.  `false` where the Python
      raises (after the first two setters have run). */
  method AnnotateLine(nl: Line, c: Rec, norm: string -> string) returns (ok: bool)
    modifies nl
    ensures ok <==> Annotate(old(nl.Val()), c, norm).Some?
    ensures ok ==> Annotate(old(nl.Val()), c, norm) == Some(nl.Val())
  {
    nl.SetLvr(c.lvr, c.lvrCh);
    nl.SetLength(norm, c.lengthC, c.lengthA);
    var parts := Split(c.pppLabel, " | ");
    var ret := PppRetPin(nl.pppPin);
    if ret.None? || |parts| < 2 {
      return false;
    }
    nl.SetLabels(nl.ppp + " - " + nl.pppPin + "/" + ret.value + " | " + parts[1], c.lvrLabel);
    return true;
  }

  /** The inner loop for cavern line `c`: every nominal line that matches is
      annotated; returns the number of matches and the last one.  `ok` is
      false where the Python raises.  `post` holds the outcome for each
      nominal line. */
  method MatchOne(noms: seq<Line>, c: Rec, norm: string -> string, ghost cur: seq<Rec>, ghost post: seq<Option<Rec>>)
    returns (ok: bool, found: nat, ref: NomRef)
    requires |noms| == |cur| == |post|
    requires forall a, b :: 0 <= a < b < |noms| ==> noms[a] != noms[b]
    requires forall j :: 0 <= j < |noms| ==> noms[j].Val() == cur[j]
    requires forall j :: 0 <= j < |noms| ==> post[j] == AnnotateIf(cur[j], c, norm)
    modifies noms
    ensures ok <==> forall j :: 0 <= j < |post| ==> post[j].Some?
    ensures ok ==> forall j :: 0 <= j < |noms| ==> post[j] == Some(noms[j].Val())
    ensures ok ==> found == Count(MinusPpp, cur, c) && ref == LastMatch(MinusPpp, cur, c)
  {
    found, ref := 0, NoMatch;
    ghost var vals := cur;
    for k := 0 to |noms|
      invariant |vals| == |noms|
      invariant forall j :: 0 <= j < |noms| ==> noms[j].Val() == vals[j]
      invariant forall j :: 0 <= j < k ==> post[j] == Some(vals[j])
      invariant forall j :: k <= j < |noms| ==> vals[j] == cur[j]
      invariant found == Count(MinusPpp, cur[..k], c) && ref == LastMatch(MinusPpp, cur[..k], c)
    {
      SearchSnoc(MinusPpp, cur, k, c);
      var done, hit := VisitNominal(noms[k], c, norm);
      if !done {
        return false, found, ref;
      }
      vals := vals[k := noms[k].Val()];
      if hit {
        found, ref := found + 1, Nominal(k);
      }
    }
    TakeAll(cur);
    ok := true;
  }

  /** One nominal line in the inner loop: annotated when it matches. */
  method VisitNominal(nl: Line, c: Rec, norm: string -> string) returns (ok: bool, hit: bool)
    modifies nl
    ensures hit == EqualMinusPpp(old(nl.Val()), c)
    ensures ok <==> AnnotateIf(old(nl.Val()), c, norm).Some?
    ensures ok ==> AnnotateIf(old(nl.Val()), c, norm) == Some(nl.Val())
  {
    hit := EqualMinusPpp(nl.Val(), c);
    ok := true;
    if hit {
      ok := AnnotateLine(nl, c, norm);
    }
  }

  /** `cavern_check_fix` up to the swap: every cavern line in turn is
      compared with every nominal line.  Returns the pairing of each cavern
      line and the warnings, with every nominal line annotated; `None` where
      the Python raises.  The nominal lines are distinct objects. */
  method MatchCavern(noms: seq<Line>, cavs: seq<Rec>, norm: string -> string)
    returns (r: Option<(seq<NomRef>, seq<Warning>)>)
    requires forall a, b :: 0 <= a < b < |noms| ==> noms[a] != noms[b]
    modifies noms
    ensures r.Some? <==> MatchAll(old(Vals(noms)), cavs, norm).Some?
    ensures r.Some? ==>
      var m := MatchAll(old(Vals(noms)), cavs, norm).value;
      r.value == (m.refs, m.warnings) && forall j :: 0 <= j < |noms| ==> noms[j].Val() == m.noms[j]
  {
    ghost var v0 := Vals(noms);
    ghost var cur := v0;
    var refs: seq<NomRef> := [];
    var warnings: seq<Warning> := [];
    for i := 0 to |cavs|
      invariant |cur| == |noms|
      invariant forall j :: 0 <= j < |noms| ==> noms[j].Val() == cur[j]
      invariant MatchAll(v0, cavs[..i], norm) == Some(Matching(cur, refs, warnings))
    {
      TakeSnoc(cavs, i);
      var ok, ref, w, next := MatchCavernLine(noms, cavs[i], i, norm, Matching(cur, refs, warnings));
      if !ok {
        MatchAllAbort(v0, cavs, i + 1, norm);
        return None;
      }
      refs, warnings, cur := refs + [ref], warnings + w, next.noms;
    }
    TakeAll(cavs);
    return Some((refs, warnings));
  }

  /** One pass of the outer loop, for cavern line `c` at position `i`: the
      pairing and the warnings it adds. */
  method MatchCavernLine(noms: seq<Line>, c: Rec, i: nat, norm: string -> string, ghost m: Matching)
    returns (ok: bool, ref: NomRef, w: seq<Warning>, ghost next: Matching)
    requires |noms| == |m.noms|
    requires forall a, b :: 0 <= a < b < |noms| ==> noms[a] != noms[b]
    requires forall j :: 0 <= j < |noms| ==> noms[j].Val() == m.noms[j]
    modifies noms
    ensures ok <==> Step(m, c, i, norm).Some?
    ensures ok ==> Step(m, c, i, norm) == Some(next)
    ensures ok ==> next.refs == m.refs + [ref] && next.warnings == m.warnings + w
    ensures ok ==> |next.noms| == |noms| && forall j :: 0 <= j < |noms| ==> noms[j].Val() == next.noms[j]
  {
    ghost var cur := m.noms;
    w, next := [], m;
    ghost var post := seq(|cur|, j requires 0 <= j < |cur| => AnnotateIf(cur[j], c, norm));
    var found;
    ok, found, ref := MatchOne(noms, c, norm, cur, post);
    if !ok {
      return;
    }
    PassIds(cur, c, norm);
    var nom := if ref.Nominal? then noms[ref.index].Val() else Placeholder;
    assert SameLine(c, nom) == SameLine(c, RefRec(cur, ref));
    w := CavWarnings(i, c, found, nom);
    StepSome(m, c, i, norm, found, ref, nom);
    next := Matching(Pass(cur, c, norm).value, m.refs + [ref], m.warnings + w);
  }

  /** The pass over one cavern line, from the count, the last match and a
      line `==` to the cavern line exactly when the last match is. */
  lemma StepSome(m: Matching, c: Rec, i: nat, norm: string -> string, found: nat, ref: NomRef, nom: Rec)
    requires Pass(m.noms, c, norm).Some?
    requires found == Count(MinusPpp, m.noms, c) && ref == LastMatch(MinusPpp, m.noms, c)
    requires SameLine(c, nom) == SameLine(c, RefRec(m.noms, ref))
    ensures Step(m, c, i, norm) ==
      Some(Matching(Pass(m.noms, c, norm).value, m.refs + [ref], m.warnings + CavWarnings(i, c, found, nom)))
  {
  }

  /** Once a prefix of the cavern lines raises, the whole loop does. */
  lemma {:induction false} MatchAllAbort(ns: seq<Rec>, cavs: seq<Rec>, k: nat, norm: string -> string)
    requires k <= |cavs| && MatchAll(ns, cavs[..k], norm).None?
    ensures MatchAll(ns, cavs, norm).None?
  {
    if k < |cavs| {
      var init := cavs[..|cavs| - 1];
      assert init[..k] == cavs[..k];
      MatchAllAbort(ns, init, k, norm);
    } else {
      TakeAll(cavs);
    }
  }

  /** The inner loop keeps every nominal line's identity. */
  lemma PassIds(ns: seq<Rec>, c: Rec, norm: string -> string)
    requires Pass(ns, c, norm).Some?
    ensures forall j :: 0 <= j < |ns| ==> SameLine(ns[j], Pass(ns, c, norm).value[j])
  {
    forall j | 0 <= j < |ns| ensures SameLine(ns[j], Pass(ns, c, norm).value[j]) {
      AnnotateOverwrites(ns[j], ns[j], c, norm);
    }
  }

  // ---------------------------------------------------------------------
  // Re-matching the moved lines

  /** Pairing computed against the nominal lines as given, line by line. */
  lemma {:induction false} RefsOfAt(crit: Criterion, ns: seq<Rec>, cavs: seq<Rec>, k: nat)
    requires k < |cavs|
    ensures RefsOf(crit, ns, cavs)[k] == LastMatch(crit, ns, cavs[k])
  {
    if k < |cavs| - 1 {
      RefsOfAt(crit, ns, cavs[..|cavs| - 1], k);
    }
  }

  /** The search for cavern line `c`'s last match, without annotating. */
  method FindLast(crit: Criterion, ns: seq<Rec>, c: Rec) returns (found: nat, ref: NomRef)
    ensures found == Count(crit, ns, c) && ref == LastMatch(crit, ns, c)
  {
    found, ref := 0, NoMatch;
    for k := 0 to |ns|
      invariant found == Count(crit, ns[..k], c) && ref == LastMatch(crit, ns[..k], c)
    {
      SearchSnoc(crit, ns, k, c);
      if Matches(crit, ns[k], c) {
        found, ref := found + 1, Nominal(k);
      }
    }
    TakeAll(ns);
  }

  /** The re-match after a position swap: each moved line is paired with
      the last nominal line of the same PEPI, PPP position and pin.  The
      nominal lines are only read. */
  method Rematch(noms: seq<Line>, moved: seq<Rec>) returns (refs: seq<NomRef>, warnings: seq<Warning>)
    ensures refs == RefsOf(PepiPpp, Vals(noms), moved)
    ensures warnings == WarningsOf(PepiPpp, Vals(noms), moved)
  {
    var ns := Vals(noms);
    refs, warnings := [], [];
    for i := 0 to |moved|
      invariant refs == RefsOf(PepiPpp, ns, moved[..i])
      invariant warnings == WarningsOf(PepiPpp, ns, moved[..i])
    {
      TakeSnoc(moved, i);
      var found, ref := FindLast(PepiPpp, ns, moved[i]);
      refs := refs + [ref];
      warnings := warnings + CavWarnings(i, moved[i], found, RefRec(ns, ref));
    }
    TakeAll(moved);
  }

  /** Each moved line is paired with the last nominal line at its PEPI,
      position and pin, or with the placeholder when there is none. */
  lemma RematchPairs(ns: seq<Rec>, moved: seq<Rec>, k: nat)
    requires k < |moved|
    ensures var ref := RefsOf(PepiPpp, ns, moved)[k];
      && (ref.Nominal? ==>
            ref.index < |ns| && EqualPepiPpp(ns[ref.index], moved[k]) &&
            forall j :: ref.index < j < |ns| ==> !EqualPepiPpp(ns[j], moved[k]))
      && (ref.NoMatch? <==> forall j :: 0 <= j < |ns| ==> !EqualPepiPpp(ns[j], moved[k]))
  {
    RefsOfAt(PepiPpp, ns, moved, k);
  }

  // ---------------------------------------------------------------------
  // The typo check

  /** Some cavern line matches nominal line `n` under `equal_minus_ppp`. */
  predicate HasMatch(n: Rec, cavs: seq<Rec>)
  {
    exists i :: 0 <= i < |cavs| && EqualMinusPpp(cavs[i], n)
  }

  /** The nominal lines without a match; each is printed by the typo
      check. */
  function Unfound(ns: seq<Rec>, cavs: seq<Rec>): seq<Rec>
  {
    if ns == [] then []
    else
      var n := ns[|ns| - 1];
      Unfound(ns[..|ns| - 1], cavs) + (if HasMatch(n, cavs) then [] else [n])
  }

  /** Nothing is printed exactly when every nominal line has a match. */
  lemma {:induction false} UnfoundEmpty(ns: seq<Rec>, cavs: seq<Rec>)
    ensures Unfound(ns, cavs) == [] <==> forall j :: 0 <= j < |ns| ==> HasMatch(ns[j], cavs)
  {
    if ns != [] {
      var init, n := ns[..|ns| - 1], ns[|ns| - 1];
      UnfoundEmpty(init, cavs);
      assert forall j :: 0 <= j < |init| ==> init[j] == ns[j];
      assert |Unfound(ns, cavs)| == |Unfound(init, cavs)| + (if HasMatch(n, cavs) then 0 else 1);
    }
  }

  /** Whether some cavern line matches nominal line `n`. */
  method AnyMatch(n: Rec, cavs: seq<Rec>) returns (found: bool)
    ensures found <==> HasMatch(n, cavs)
  {
    found := false;
    for i := 0 to |cavs|
      invariant found <==> exists k :: 0 <= k < i && EqualMinusPpp(cavs[k], n)
    {
      if EqualMinusPpp(cavs[i], n) {
        found := true;
      }
    }
  }

  /** `cavern_typo_check`: true exactly when every nominal line matches some
      cavern line, whatever the PPP; the nominal lines that do not are
      returned in order. */
  method CavernTypoCheck(noms: seq<Rec>, cavs: seq<Rec>) returns (ok: bool, missing: seq<Rec>)
    ensures missing == Unfound(noms, cavs)
    ensures ok <==> forall j :: 0 <= j < |noms| ==> HasMatch(noms[j], cavs)
  {
    ok, missing := true, [];
    for j := 0 to |noms|
      invariant missing == Unfound(noms[..j], cavs)
      invariant ok <==> missing == []
    {
      TakeSnoc(noms, j);
      var found := AnyMatch(noms[j], cavs);
      if !found {
        missing := missing + [noms[j]];
        ok := false;
      }
    }
    TakeAll(noms);
    UnfoundEmpty(noms, cavs);
  }

  /** When the typo check passes and the matcher runs through, every nominal
      line carries the annotations of some cavern line it matches. */
  lemma TypoCheckedAllAnnotated(ns: seq<Rec>, cavs: seq<Rec>, norm: string -> string)
    requires Unfound(ns, cavs) == []
    requires MatchAll(ns, cavs, norm).Some?
    ensures forall j :: 0 <= j < |ns| ==>
      exists i :: 0 <= i < |cavs| && EqualMinusPpp(ns[j], cavs[i]) &&
                  Annotate(ns[j], cavs[i], norm) == Some(MatchAll(ns, cavs, norm).value.noms[j])
  {
    UnfoundEmpty(ns, cavs);
    MatchAllFinal(ns, cavs, norm);
    var m := MatchAll(ns, cavs, norm).value;
    forall j | 0 <= j < |ns|
      ensures exists i :: 0 <= i < |cavs| && EqualMinusPpp(ns[j], cavs[i]) &&
                          Annotate(ns[j], cavs[i], norm) == Some(m.noms[j])
    {
      assert HasMatch(ns[j], cavs);
      var i := LastCav(ns[j], cavs).value;
      assert FinalIs(ns[j], cavs, norm, m.noms[j]);
    }
  }

  // ---------------------------------------------------------------------
  // The values of the pairing

  /** `ppp_corrected_cavern_lines.values()`: for each cavern line the paired
      nominal line as it stands at the end, or the placeholder. */
  function Corrected(ns: seq<Rec>, refs: seq<NomRef>): (r: seq<Rec>)
    requires forall k :: 0 <= k < |refs| && refs[k].Nominal? ==> refs[k].index < |ns|
    ensures |r| == |refs|
  {
    if refs == [] then [] else Corrected(ns, refs[..|refs| - 1]) + [RefRec(ns, refs[|refs| - 1])]
  }

  lemma {:induction false} CorrectedAt(ns: seq<Rec>, refs: seq<NomRef>, k: nat)
    requires forall k :: 0 <= k < |refs| && refs[k].Nominal? ==> refs[k].index < |ns|
    requires k < |refs|
    ensures Corrected(ns, refs)[k] == RefRec(ns, refs[k])
  {
    if k < |refs| - 1 {
      CorrectedAt(ns, refs[..|refs| - 1], k);
    }
  }

  /** After the matcher, the entry of cavern line `k` is the placeholder
      when no nominal line matches it, and otherwise the last matching
      nominal line, annotated by the last cavern line that matches it. */
  lemma CorrectedOfMatch(ns: seq<Rec>, cavs: seq<Rec>, norm: string -> string, k: nat)
    requires MatchAll(ns, cavs, norm).Some? && k < |cavs|
    ensures var m := MatchAll(ns, cavs, norm).value;
      && (forall q :: 0 <= q < |m.refs| && m.refs[q].Nominal? ==> m.refs[q].index < |m.noms|)
      && var e := Corrected(m.noms, m.refs)[k];
      && ((forall j :: 0 <= j < |ns| ==> !EqualMinusPpp(ns[j], cavs[k])) ==> e == Placeholder)
      && (m.refs[k].Nominal? ==>
            m.refs[k].index < |ns| && EqualMinusPpp(ns[m.refs[k].index], cavs[k]) &&
            FinalIs(ns[m.refs[k].index], cavs, norm, e))
  {
    var m := MatchAll(ns, cavs, norm).value;
    MatchAllRefs(ns, cavs, norm);
    MatchAllFinal(ns, cavs, norm);
    forall q | 0 <= q < |m.refs| && m.refs[q].Nominal?
      ensures m.refs[q].index < |m.noms|
    {
      RefsOfAt(MinusPpp, ns, cavs, q);
    }
    RefsOfAt(MinusPpp, ns, cavs, k);
    CorrectedAt(m.noms, m.refs, k);
  }
}
