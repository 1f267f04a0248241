/** One power line of the map (`line` in the checker): the identity of the
    powered load (side, top/bot, mag/ip, backplane, connectors, flex, load
    group, master/slave/alone), its PPP position and pin, and annotations
    filled in later (cable lengths, LVR and channel, two display labels). */
module Lines {
  import opened Text
  import opened Lookups

  /** A snapshot of all seventeen fields of a line. */
  datatype Rec = Rec(
    x: string, y: string, z: string, bp: string, bpCon: string, ibbp2b2: string,
    flex: string, load: string, msa: string, ppp: string, pppPin: string,
    lengthC: string, lengthA: string, lvr: string, lvrCh: string,
    pppLabel: string, lvrLabel: string)

  /** A freshly constructed line: the annotations hold their "not set yet"
      defaults, "-1" for lengths, LVR and channel, "NA" for the labels. */
  function NewRec(x: string, y: string, z: string, bp: string, bpCon: string, ibbp2b2: string,
                  flex: string, load: string, msa: string, ppp: string, pppPin: string): Rec
  {
    Rec(x, y, z, bp, bpCon, ibbp2b2, flex, load, msa, ppp, pppPin, "-1", "-1", "-1", "-1", "NA", "NA")
  }

  /** The line that stands for "no nominal line found": every constructor
      argument is "na". */
  const Placeholder: Rec := NewRec("na", "na", "na", "na", "na", "na", "na", "na", "na", "na", "na")

  // ---------------------------------------------------------------------
  // The three identity comparisons

  /** `equal_minus_ppp`: same load, whatever the PPP position and pin. */
  predicate EqualMinusPpp(a: Rec, b: Rec)
  {
    a.x == b.x && a.y == b.y && a.z == b.z && a.bp == b.bp && a.bpCon == b.bpCon &&
    a.ibbp2b2 == b.ibbp2b2 && a.flex == b.flex && a.load == b.load && a.msa == b.msa
  }

  /** `equal_pepi_ppp`: same PEPI, PPP position and pin. */
  predicate EqualPepiPpp(a: Rec, b: Rec)
  {
    a.x == b.x && a.y == b.y && a.z == b.z && a.ppp == b.ppp && a.pppPin == b.pppPin
  }

  /** `__eq__`: all eleven identity fields. */
  predicate SameLine(a: Rec, b: Rec)
  {
    a.x == b.x && a.y == b.y && a.z == b.z && a.bp == b.bp && a.bpCon == b.bpCon &&
    a.ibbp2b2 == b.ibbp2b2 && a.flex == b.flex && a.load == b.load && a.msa == b.msa &&
    a.ppp == b.ppp && a.pppPin == b.pppPin
  }

  /** Full equality is load identity plus the same PPP position and pin, and
      it implies both weaker comparisons. */
  lemma SameLineSplits(a: Rec, b: Rec)
    ensures SameLine(a, b) <==> EqualMinusPpp(a, b) && a.ppp == b.ppp && a.pppPin == b.pppPin
    ensures SameLine(a, b) ==> EqualMinusPpp(a, b) && EqualPepiPpp(a, b)
  {
  }

  /** Keeps the identity fields of `a` and takes every annotation from `b`. */
  function Reannotate(a: Rec, b: Rec): Rec
  {
    a.(lengthC := b.lengthC, lengthA := b.lengthA, lvr := b.lvr, lvrCh := b.lvrCh,
       pppLabel := b.pppLabel, lvrLabel := b.lvrLabel)
  }

  /** None of the three comparisons looks at lengths, LVR, channel or labels. */
  lemma ComparisonsIgnoreAnnotations(a: Rec, b: Rec, c: Rec)
    ensures SameLine(Reannotate(a, c), b) == SameLine(a, b)
    ensures EqualMinusPpp(Reannotate(a, c), b) == EqualMinusPpp(a, b)
    ensures EqualPepiPpp(Reannotate(a, c), b) == EqualPepiPpp(a, b)
  {
  }

  // ---------------------------------------------------------------------
  // Lengths

  /** What `set_length` stores: "splice" and anything containing "|" verbatim,
      everything else through the numeric normalisation `norm`
      (`one_dec_str`, rounding to one decimal). */
  function StoredLength(norm: string -> string, s: string): string
  {
    if s == "splice" || Contains(s, "|") then s else norm(s)
  }

  /** Storing a stored length again changes nothing, as long as the
      normalisation is idempotent and never yields "splice" or a "|". */
  lemma StoredLengthIdempotent(norm: string -> string, s: string)
    requires forall t :: norm(norm(t)) == norm(t) && norm(t) != "splice" && !Contains(norm(t), "|")
    ensures StoredLength(norm, StoredLength(norm, s)) == StoredLength(norm, s)
    ensures (s == "splice" || Contains(s, "|")) ==> StoredLength(norm, s) == s
  {
  }

  // ---------------------------------------------------------------------
  // LVR pins of a (possibly spliced) line

  /** One `get_lvr_pins` segment: "<lvr> - <con> - <pin>/<pin-1>". */
  function ChannelSegment(lvr: string, ch: int): string
  {
    lvr + " - " + PowerCon(ch) + " - " + IntToString(PowerPin(ch)) + "/" + IntToString(PowerPin(ch) - 1)
  }

  /** The channels of `" Y "`-separated pieces, each read with
      `int(float(...))`; `None` when some piece does not parse. */
  function Channels(pieces: seq<string>): (r: Option<seq<int>>)
    ensures r.Some? ==> |r.value| == |pieces|
    ensures r.Some? ==> forall i :: 0 <= i < |pieces| ==> ParseFloatTrunc(pieces[i]) == Some(r.value[i])
    ensures r.None? ==> exists i :: 0 <= i < |pieces| && ParseFloatTrunc(pieces[i]).None?
  {
    if pieces == [] then Some([])
    else
      match ParseFloatTrunc(pieces[0])
      case None => None
      case Some(c) =>
        match Channels(pieces[1..])
        case None => None
        case Some(cs) => Some([c] + cs)
  }

  lemma ParsedSnoc(pieces: seq<string>, i: nat, parsed: seq<int>, c: int)
    requires i < |pieces| && |parsed| == i && ParseFloatTrunc(pieces[i]) == Some(c)
    requires forall j :: 0 <= j < i ==> ParseFloatTrunc(pieces[j]) == Some(parsed[j])
    ensures forall j :: 0 <= j < i + 1 ==> ParseFloatTrunc(pieces[j]) == Some((parsed + [c])[j])
  {
  }

  /** Pieces that all parse determine their channels. */
  lemma ChannelsOf(pieces: seq<string>, chs: seq<int>)
    requires |pieces| == |chs|
    requires forall i :: 0 <= i < |pieces| ==> ParseFloatTrunc(pieces[i]) == Some(chs[i])
    ensures Channels(pieces) == Some(chs)
  {
    var c := Channels(pieces);
    assert c.Some?;
    assert forall i :: 0 <= i < |chs| ==> c.value[i] == chs[i];
    assert c.value == chs;
  }

  function Segments(lvr: string, chs: seq<int>): (segs: seq<string>)
    ensures |segs| == |chs| && forall i :: 0 <= i < |chs| ==> segs[i] == ChannelSegment(lvr, chs[i])
  {
    seq(|chs|, i requires 0 <= i < |chs| => ChannelSegment(lvr, chs[i]))
  }

  /** What `get_lvr_pins` returns for a line: one segment per channel of the
      `" Y "`-separated channel field, joined with `"  Y  "`. */
  function LvrPins(r: Rec): Option<string>
  {
    match Channels(Split(r.lvrCh, " Y "))
    case None => None
    case Some(chs) => Some(Join(Segments(r.lvr, chs), "  Y  "))
  }

  /** Appending one more part to a join. */
  lemma JoinSnoc(parts: seq<string>, last: string, sep: string)
    requires |parts| > 0
    ensures Join(parts + [last], sep) == Join(parts, sep) + sep + last
  {
    if |parts| == 1 {
      assert (parts + [last])[1..] == [last];
    } else {
      assert (parts + [last])[1..] == parts[1..] + [last];
      JoinSnoc(parts[1..], last, sep);
    }
  }

  /** Every part followed by the separator: the text `get_lvr_pins` has
      built before it cuts the last separator off. */
  function SepConcat(parts: seq<string>, sep: string): string
  {
    if parts == [] then "" else SepConcat(parts[..|parts| - 1], sep) + parts[|parts| - 1] + sep
  }

  /** One more channel adds its segment and a separator. */
  lemma SegmentsSnoc(lvr: string, chs: seq<int>, c: int, sep: string)
    ensures SepConcat(Segments(lvr, chs + [c]), sep) == SepConcat(Segments(lvr, chs), sep) + ChannelSegment(lvr, c) + sep
  {
    var segs := Segments(lvr, chs + [c]);
    assert segs[..|chs|] == Segments(lvr, chs);
  }

  lemma {:induction false} SepConcatJoin(parts: seq<string>, sep: string)
    requires |parts| > 0
    ensures |SepConcat(parts, sep)| >= |sep|
    ensures DropLast(SepConcat(parts, sep), |sep|) == Join(parts, sep)
  {
    var init := parts[..|parts| - 1];
    var last := parts[|parts| - 1];
    var t := SepConcat(parts, sep);
    assert t == SepConcat(init, sep) + last + sep;
    if |parts| == 1 {
      assert SepConcat(init, sep) == "";
      assert t[..|t| - |sep|] == last;
    } else {
      SepConcatJoin(init, sep);
      var s := SepConcat(init, sep);
      assert s == DropLast(s, |sep|) + sep;
      JoinSnoc(init, last, sep);
      assert parts == init + [last];
      assert t[..|t| - |sep|] == s + last;
    }
  }

  /** The decimal channel numbers of a spliced line, joined with " Y ", give
      back one pin segment per channel. */
  lemma {:induction false} LvrPinsOfChannels(r: Rec, chs: seq<int>)
    requires |chs| > 0
    requires r.lvrCh == Join(seq(|chs|, i requires 0 <= i < |chs| => IntToString(chs[i])), " Y ")
    ensures LvrPins(r) == Some(Join(Segments(r.lvr, chs), "  Y  "))
  {
    var strs := seq(|chs|, i requires 0 <= i < |chs| => IntToString(chs[i]));
    assert Marker(" Y ", 1) by { assert " Y "[..1] == " "; }
    forall i | 0 <= i < |strs|
      ensures 'Y' !in strs[i] && ParseFloatTrunc(strs[i]) == Some(chs[i])
    {
      IntToStringChars(chs[i], 'Y');
      ParseFloatTruncOfIntToString(chs[i]);
    }
    SplitJoin(strs, " Y ", 1);
    ChannelsOf(strs, chs);
  }

  // ---------------------------------------------------------------------
  // Stereo/straight flip

  /** The PEPIs whose backplane connectors use the mirror numbering. */
  predicate MirrorBoard(x: string, y: string, z: string)
  {
    (x == "C" && ((y == "bot" && z == "mag") || (y == "top" && z == "ip"))) ||
    (x == "A" && ((y == "bot" && z == "ip") || (y == "top" && z == "mag")))
  }

  /** The flip's notion of a mirror board is exactly the PEPI type table. */
  lemma MirrorBoardIsMirror(x: string, y: string, z: string)
    ensures MirrorBoard(x, y, z) <==> TrueMirror(x, y, z) == "Mirror"
  {
  }

  /** The other flex of the same layer: X becomes S, anything else X. */
  function ToggledFlex(flex: string): string
    requires |flex| > 0
  {
    (if flex[0] == 'X' then "S" else "X") + flex[1..]
  }

  /** `flip_stereo_straight_line` on a snapshot.  DCB lines (a "JD" connector)
      are returned unchanged; otherwise the flex initial is toggled and the
      connector recomputed from it.  `None` stands for the two ways the Python
      goes wrong: an empty flex name raises `IndexError`, and a flex with no
      connector makes the connector `None`, which the caller's hashing of the
      line then rejects. */
  function FlipRec(r: Rec, norm: string -> string): Option<Rec>
  {
    if Contains(r.bpCon, "JD") then Some(r)
    else if |r.flex| == 0 then None
    else
      var mirror := MirrorBoard(r.x, r.y, r.z);
      var flex := ToggledFlex(r.flex);
      match FirstJP(flex, mirror, 0)
      case None => None
      case Some(n) =>
        Some(NewRec(r.x, r.y, r.z, r.bp, JPName(n), r.ibbp2b2, flex, r.load, r.msa, r.ppp, r.pppPin)
               .(lengthC := StoredLength(norm, r.lengthC), lengthA := StoredLength(norm, r.lengthA),
                 lvr := r.lvr, lvrCh := r.lvrCh))
  }

  /** A flipped hybrid line differs only in flex (initial toggled) and
      connector (the one that flex names on this board), keeps PPP position,
      pin, LVR and channel, and has fresh labels. */
  lemma FlipKeeps(r: Rec, norm: string -> string)
    requires !Contains(r.bpCon, "JD") && FlipRec(r, norm).Some?
    ensures var f := FlipRec(r, norm).value;
      |f.flex| == |r.flex| > 0 && f.flex[1..] == r.flex[1..] &&
      (r.flex[0] == 'X' <==> f.flex[0] == 'S') && (r.flex[0] != 'X' ==> f.flex[0] == 'X') &&
      (exists n :: 0 <= n < 12 && f.bpCon == JPName(n) && AltOf(n, MirrorBoard(r.x, r.y, r.z)) == f.flex) &&
      f.x == r.x && f.y == r.y && f.z == r.z && f.bp == r.bp && f.ibbp2b2 == r.ibbp2b2 &&
      f.load == r.load && f.msa == r.msa && f.ppp == r.ppp && f.pppPin == r.pppPin &&
      f.lvr == r.lvr && f.lvrCh == r.lvrCh && f.pppLabel == "NA" && f.lvrLabel == "NA"
  {
    var mirror := MirrorBoard(r.x, r.y, r.z);
    FirstJPIsFirst(ToggledFlex(r.flex), mirror, 0);
    var n := FirstJP(ToggledFlex(r.flex), mirror, 0).value;
    assert FlipRec(r, norm).value.bpCon == JPName(n);
  }

  /** DCB lines are left alone. */
  lemma FlipLeavesDcb(r: Rec, norm: string -> string)
    requires Contains(r.bpCon, "JD")
    ensures FlipRec(r, norm) == Some(r)
  {
  }

  /** The connector name with the other flex initial, on the same layer. */
  lemma AltPartner(i: nat) returns (j: nat)
    requires i < 12
    ensures j < 12 && |AltLabels[i]| == 3
    ensures AltLabels[j] == ToggledFlex(AltLabels[i]) && ToggledFlex(AltLabels[j]) == AltLabels[i]
  {
    j := 4 * (i / 4) + 3 - i % 4;
    if i == 0 { assert j == 3; }
    else if i == 1 { assert j == 2; }
    else if i == 2 { assert j == 1; }
    else if i == 3 { assert j == 0; }
    else if i == 4 { assert j == 7; }
    else if i == 5 { assert j == 6; }
    else if i == 6 { assert j == 5; }
    else if i == 7 { assert j == 4; }
    else if i == 8 { assert j == 11; }
    else if i == 9 { assert j == 10; }
    else if i == 10 { assert j == 9; }
    else { assert j == 8; }
  }

  /** Every connector name's flipped flex is again a connector name, and
      flipping that one gives the first back. */
  lemma ToggledAltLabel(n: nat, mirror: bool) returns (k: nat)
    requires n < 12
    ensures |AltOf(n, mirror)| > 0 && k < 12
    ensures AltOf(k, mirror) == ToggledFlex(AltOf(n, mirror))
    ensures ToggledFlex(AltOf(k, mirror)) == AltOf(n, mirror)
  {
    MirrorShiftInvolution(n, mirror);
    var i := MirrorShift(n, mirror);
    var j := AltPartner(i);
    MirrorShiftInvolution(j, mirror);
    k := MirrorShift(j, mirror);
    assert AltOf(k, mirror) == AltLabels[j];
  }

  /** The flip of a hybrid line whose toggled flex names connector JP<k>. */
  lemma FlipRecHybrid(r: Rec, norm: string -> string, k: nat)
    requires k < 12 && !Contains(r.bpCon, "JD") && |r.flex| > 0
    requires AltOf(k, MirrorBoard(r.x, r.y, r.z)) == ToggledFlex(r.flex)
    ensures FlipRec(r, norm).Some?
    ensures FlipRec(r, norm).value.bpCon == JPName(k)
    ensures FlipRec(r, norm).value.flex == ToggledFlex(r.flex)
    ensures FlipRec(r, norm).value.(bpCon := r.bpCon, flex := r.flex) ==
      r.(lengthC := StoredLength(norm, r.lengthC), lengthA := StoredLength(norm, r.lengthA),
         pppLabel := "NA", lvrLabel := "NA")
  {
    AltToJPRoundTrip(k, MirrorBoard(r.x, r.y, r.z));
  }

  /** Flipping a hybrid line whose flex is a connector name gives a line whose
      flex is again a connector name, on the same board, and the flex toggles
      back to the original one. */
  lemma FlipStep(r: Rec, norm: string -> string, n: nat) returns (k: nat)
    requires n < 12 && !Contains(r.bpCon, "JD") && r.flex == AltOf(n, MirrorBoard(r.x, r.y, r.z))
    ensures k < 12 && FlipRec(r, norm).Some?
    ensures FlipRec(r, norm).value.bpCon == JPName(k)
    ensures FlipRec(r, norm).value.flex == AltOf(k, MirrorBoard(r.x, r.y, r.z))
    ensures ToggledFlex(FlipRec(r, norm).value.flex) == r.flex
    ensures MirrorBoard(FlipRec(r, norm).value.x, FlipRec(r, norm).value.y, FlipRec(r, norm).value.z)
         == MirrorBoard(r.x, r.y, r.z)
  {
    k := ToggledAltLabel(n, MirrorBoard(r.x, r.y, r.z));
    FlipRecHybrid(r, norm, k);
  }

  /** A "JP" connector name never looks like a DCB connector. */
  lemma JPNameNotDcb(k: nat)
    ensures !Contains(JPName(k), "JD")
  {
    var c := JPName(k);
    IntToStringChars(k, 'J');
    forall j | 0 <= j <= |c|
      ensures !("JD" <= c[j..])
    {
      if j + 2 <= |c| {
        if j == 0 {
          assert c[j..][1] == 'P';
        } else if j == 1 {
          assert c[j..][0] == 'P';
        } else {
          assert c[j..][0] == IntToString(k)[j - 2];
        }
      }
    }
  }

  /** On a hybrid line whose connector agrees with its flex, flipping twice
      restores flex and connector. */
  lemma {:induction false} FlipTwice(r: Rec, norm: string -> string, n: nat)
    requires n < 12 && !Contains(r.bpCon, "JD")
    requires r.flex == AltOf(n, MirrorBoard(r.x, r.y, r.z)) && r.bpCon == JPName(n)
    ensures FlipRec(r, norm).Some?
    ensures FlipRec(FlipRec(r, norm).value, norm).Some?
    ensures FlipRec(FlipRec(r, norm).value, norm).value.flex == r.flex
    ensures FlipRec(FlipRec(r, norm).value, norm).value.bpCon == r.bpCon
  {
    var k := FlipStep(r, norm, n);
    var f := FlipRec(r, norm).value;
    JPNameNotDcb(k);
    var m := FlipStep(f, norm, k);
    var mirror := MirrorBoard(r.x, r.y, r.z);
    assert AltOf(m, mirror) == r.flex == AltOf(n, mirror);
    AltToJPRoundTrip(m, mirror);
    AltToJPRoundTrip(n, mirror);
  }

  // ---------------------------------------------------------------------
  // The mutable line object

  class Line {
    var x: string
    var y: string
    var z: string
    var bp: string
    var bpCon: string
    var ibbp2b2: string
    var flex: string
    var load: string
    var msa: string
    var ppp: string
    var pppPin: string
    var lengthC: string
    var lengthA: string
    var lvr: string
    var lvrCh: string
    var pppLabel: string
    var lvrLabel: string

    function Val(): Rec
      reads this
    {
      Rec(x, y, z, bp, bpCon, ibbp2b2, flex, load, msa, ppp, pppPin,
          lengthC, lengthA, lvr, lvrCh, pppLabel, lvrLabel)
    }

    constructor (x: string, y: string, z: string, bp: string, bpCon: string, ibbp2b2: string,
                 flex: string, load: string, msa: string, ppp: string, pppPin: string)
      ensures Val() == NewRec(x, y, z, bp, bpCon, ibbp2b2, flex, load, msa, ppp, pppPin)
    {
      this.x, this.y, this.z := x, y, z;
      this.bp, this.bpCon, this.ibbp2b2 := bp, bpCon, ibbp2b2;
      this.flex, this.load, this.msa := flex, load, msa;
      this.ppp, this.pppPin := ppp, pppPin;
      lengthC, lengthA := "-1", "-1";
      lvr, lvrCh := "-1", "-1";
      pppLabel, lvrLabel := "NA", "NA";
    }

    /** `set_length` */
    method SetLength(norm: string -> string, c: string, a: string)
      modifies this
      ensures Val() == old(Val()).(lengthC := StoredLength(norm, c), lengthA := StoredLength(norm, a))
    {
      lengthC := StoredLength(norm, c);
      lengthA := StoredLength(norm, a);
    }

    /** `set_lvr` */
    method SetLvr(lvr: string, ch: string)
      modifies this
      ensures Val() == old(Val()).(lvr := lvr, lvrCh := ch)
    {
      this.lvr := lvr;
      lvrCh := ch;
    }

    /** `set_labels` */
    method SetLabels(pppLabel: string, lvrLabel: string)
      modifies this
      ensures Val() == old(Val()).(pppLabel := pppLabel, lvrLabel := lvrLabel)
    {
      this.pppLabel := pppLabel;
      this.lvrLabel := lvrLabel;
    }

    /** `get_lvr_pins`: builds "<segment>  Y  " per channel and cuts the last
        separator off.  A channel that does not parse raises in the Python,
        modelled as `None`. */
    method GetLvrPins() returns (r: Option<string>)
      ensures r == LvrPins(Val())
    {
      var chs := Split(lvrCh, " Y ");
      var res := "";
      var i := 0;
      ghost var parsed: seq<int> := [];
      while i < |chs|
        invariant 0 <= i <= |chs| && |parsed| == i
        invariant forall j :: 0 <= j < i ==> ParseFloatTrunc(chs[j]) == Some(parsed[j])
        invariant res == SepConcat(Segments(lvr, parsed), "  Y  ")
      {
        var ch := ParseFloatTrunc(chs[i]);
        if ch.None? {
          assert Channels(chs).None?;
          return None;
        }
        SegmentsSnoc(lvr, parsed, ch.value, "  Y  ");
        res := res + ChannelSegment(lvr, ch.value) + "  Y  ";
        ParsedSnoc(chs, i, parsed, ch.value);
        parsed := parsed + [ch.value];
        i := i + 1;
      }
      ChannelsOf(chs, parsed);
      SepConcatJoin(Segments(lvr, parsed), "  Y  ");
      r := Some(DropLast(res, 5));
    }

    /** `flip_stereo_straight_line`: a DCB line returns itself; otherwise a new
        line is built with the toggled flex, the connector that flex names, and
        the same lengths, LVR and channel. */
    method FlipStereoStraight(norm: string -> string) returns (f: Option<Line>)
      ensures f.Some? <==> FlipRec(Val(), norm).Some?
      ensures f.Some? ==> f.value.Val() == FlipRec(Val(), norm).value
      ensures Contains(bpCon, "JD") ==> f == Some(this)
      ensures !Contains(bpCon, "JD") && f.Some? ==> fresh(f.value)
    {
      if Contains(bpCon, "JD") {
        return Some(this);
      }
      if |flex| == 0 {
        return None;
      }
      var mirror := MirrorBoard(x, y, z);
      var newFlex := ToggledFlex(flex);
      var newBpCon := BpConAltToJP(newFlex, mirror);
      if newBpCon.None? {
        return None;
      }
      var l := new Line(x, y, z, bp, newBpCon.value, ibbp2b2, newFlex, load, msa, ppp, pppPin);
      l.SetLength(norm, lengthC, lengthA);
      l.SetLvr(lvr, lvrCh);
      return Some(l);
    }
  }

  /** The snapshots of a list of line objects. */
  function Vals(ls: seq<Line>): (r: seq<Rec>)
    reads ls
    ensures |r| == |ls| && forall i :: 0 <= i < |ls| ==> r[i] == ls[i].Val()
  {
    if ls == [] then [] else Vals(ls[..|ls| - 1]) + [ls[|ls| - 1].Val()]
  }
}
