/** The fixed lookup tables of the cable-map checker: backplane-connector
    notations, LVR channel and pin numbering, the true/mirror orientation of a
    PEPI, PPP return pins and the small label conversions. */
module Lookups {
  import opened Text

  // ---------------------------------------------------------------------
  // Backplane connectors: "JP<n>" and the alternative X/S notation

  /** Alternative connector names, indexed by the (possibly shifted) JP number. */
  const AltLabels: seq<string> :=
    ["X0M", "X0S", "S0S", "S0M", "X1M", "X1S", "S1S", "S1M", "X2M", "X2S", "S2S", "S2M"]

  /** On a mirror board the connectors swap in pairs of pairs: 0,1 <-> 2,3,
      4,5 <-> 6,7 and 8,9 <-> 10,11.  Division is floor division, as in Python. */
  function MirrorShift(index: int, mirror: bool): int
  {
    if !mirror then index
    else if (index / 2) % 2 == 0 then index + 2
    else index - 2
  }

  lemma MirrorShiftInvolution(n: int, mirror: bool)
    requires 0 <= n < 12
    ensures 0 <= MirrorShift(n, mirror) < 12
    ensures MirrorShift(MirrorShift(n, mirror), mirror) == n
  {
  }

  function JPName(n: int): string
  {
    "JP" + IntToString(n)
  }

  /** `bp_con_JP_to_alt`: the number after "JP" is parsed with `int` (a
      failure raises, modelled as `None`) and, after the mirror shift, used as a
      Python list index, so negative values count from the end. */
  function BpConJPToAlt(jp: string, mirror: bool): Option<string>
  {
    match ParseInt(DropFirst(jp, 2))
    case None => None
    case Some(index) => PyIndex(AltLabels, MirrorShift(index, mirror))
  }

  lemma BpConJPToAltOfName(n: int, mirror: bool)
    requires 0 <= n < 12
    ensures BpConJPToAlt(JPName(n), mirror) == Some(AltLabels[MirrorShift(n, mirror)])
  {
    assert DropFirst(JPName(n), 2) == IntToString(n);
    ParseIntOfIntToString(n);
    MirrorShiftInvolution(n, mirror);
  }

  /** Index of a name in `AltLabels`: the layer digit picks a group of four,
      the X/S letter and the M/S suffix the place inside it. */
  function AltIndex(name: string): int
    requires |name| == 3
  {
    var layer := name[1] as int - '0' as int;
    var inGroup :=
      if name[0] == 'X' then (if name[2] == 'M' then 0 else 1)
      else (if name[2] == 'S' then 2 else 3);
    4 * layer + inGroup
  }

  lemma AltLabelsDistinct(a: nat, b: nat)
    requires a < 12 && b < 12 && AltLabels[a] == AltLabels[b]
    ensures a == b
  {
    assert forall i :: 0 <= i < 12 ==> |AltLabels[i]| == 3 && AltIndex(AltLabels[i]) == i;
  }

  /** Alternative name of JP<n> for n in 0..11. */
  function AltOf(n: nat, mirror: bool): string
    requires n < 12
  {
    MirrorShiftInvolution(n, mirror);
    AltLabels[MirrorShift(n, mirror)]
  }

  /** The first JP number in `from..11` whose alternative name is `alt`. */
  function FirstJP(alt: string, mirror: bool, from: nat): (r: Option<nat>)
    ensures r.Some? ==> from <= r.value < 12
    decreases 12 - from
  {
    if from >= 12 then None
    else if AltOf(from, mirror) == alt then Some(from)
    else FirstJP(alt, mirror, from + 1)
  }

  /** `FirstJP` finds the first match and reports `None` only when there is none. */
  lemma {:induction false} FirstJPIsFirst(alt: string, mirror: bool, from: nat)
    ensures var r := FirstJP(alt, mirror, from);
      (r.Some? ==> AltOf(r.value, mirror) == alt && forall k :: from <= k < r.value ==> AltOf(k, mirror) != alt) &&
      (r.None? ==> forall k :: from <= k < 12 ==> AltOf(k, mirror) != alt)
    decreases 12 - from
  {
    if from < 12 && AltOf(from, mirror) != alt {
      FirstJPIsFirst(alt, mirror, from + 1);
    }
  }

  /** `bp_con_alt_to_JP`: tries JP0 .. JP11 in turn and returns the first whose
      alternative name is `alt`, or `None` when there is none. */
  method BpConAltToJP(alt: string, mirror: bool) returns (r: Option<string>)
    ensures r.Some? <==> FirstJP(alt, mirror, 0).Some?
    ensures r.Some? ==> r.value == JPName(FirstJP(alt, mirror, 0).value)
  {
    var jp := 0;
    while jp < 12
      invariant 0 <= jp <= 12
      invariant FirstJP(alt, mirror, 0) == FirstJP(alt, mirror, jp)
    {
      BpConJPToAltOfName(jp, mirror);
      if BpConJPToAlt(JPName(jp), mirror) == Some(alt) {
        return Some(JPName(jp));
      }
      jp := jp + 1;
    }
    return None;
  }

  /** The two notations are inverse to each other on JP0 .. JP11, on plain and
      mirror boards alike. */
  lemma {:induction false} AltToJPRoundTrip(n: nat, mirror: bool)
    requires n < 12
    ensures BpConJPToAlt(JPName(n), mirror) == Some(AltOf(n, mirror))
    ensures FirstJP(AltOf(n, mirror), mirror, 0) == Some(n)
  {
    BpConJPToAltOfName(n, mirror);
    FirstJPIsFirst(AltOf(n, mirror), mirror, 0);
    var r := FirstJP(AltOf(n, mirror), mirror, 0);
    assert r.Some?;
    var k := r.value;
    MirrorShiftInvolution(k, mirror);
    MirrorShiftInvolution(n, mirror);
    AltLabelsDistinct(MirrorShift(k, mirror), MirrorShift(n, mirror));
  }

  // ---------------------------------------------------------------------
  // LVR sense connectors, channels and power pins

  predicate IsSenseCon(con: string) { con == "J10" || con == "J16" }

  predicate IsTwistPair(pair: string) { pair == "1-2" || pair == "4-5" || pair == "3-6" || pair == "7-8" }

  /** Position of a twisted pair in the order 1-2, 4-5, 3-6, 7-8. */
  function PairRank(pair: string): nat
    requires IsTwistPair(pair)
  {
    if pair == "1-2" then 0 else if pair == "4-5" then 1 else if pair == "3-6" then 2 else 3
  }

  /** `lvr_twistpair_to_ch`: J10 pairs are channels 1-4, J16 pairs channels
      5-8; anything else gives a string of question marks. */
  function LvrTwistpairToCh(con: string, pair: string): string
  {
    if con == "J10" then
      if pair == "1-2" then "1"
      else if pair == "4-5" then "2"
      else if pair == "3-6" then "3"
      else if pair == "7-8" then "4"
      else "???"
    else if con == "J16" then
      if pair == "1-2" then "5"
      else if pair == "4-5" then "6"
      else if pair == "3-6" then "7"
      else if pair == "7-8" then "8"
      else "????"
    else "?????"
  }

  predicate AllQuestionMarks(s: string) { |s| > 0 && forall i :: 0 <= i < |s| ==> s[i] == '?' }

  lemma LvrTwistpairToChTable(con: string, pair: string)
    ensures IsSenseCon(con) && IsTwistPair(pair) ==>
      LvrTwistpairToCh(con, pair) == IntToString(PairRank(pair) + (if con == "J10" then 1 else 5))
    ensures !(IsSenseCon(con) && IsTwistPair(pair)) ==> AllQuestionMarks(LvrTwistpairToCh(con, pair))
  {
  }

  /** `lvr_ch_to_pin`: the source pin of an LVR channel, "J12_<10-2ch>" for
      channels below 5 and "J13_<18-2ch>" otherwise; the channel is read with
      `int(float(...))`, whose failure is modelled as `None`. */
  function LvrChToPin(chn: string): Option<string>
  {
    match ParseFloatTrunc(chn)
    case None => None
    case Some(ch) => Some(PowerCon(ch) + "_" + IntToString(PowerPin(ch)))
  }

  /** Power connector and source pin of channel `ch`: channels below 5 are on
      J12 at pin 10-2ch, the others on J13 at pin 18-2ch (the same formula is
      used by `lvr_ch_to_pin` and `line.get_lvr_pins`). */
  function PowerCon(ch: int): string { if ch < 5 then "J12" else "J13" }

  function PowerPin(ch: int): int { if ch < 5 then 10 - 2 * ch else 18 - 2 * ch }

  /** The sense pair of a channel lands on the power pins 8, 6, 4, 2 of J12
      (for J10) or J13 (for J16), in pair order. */
  lemma {:induction false} SensePairPowerPin(con: string, pair: string)
    requires IsSenseCon(con) && IsTwistPair(pair)
    ensures LvrChToPin(LvrTwistpairToCh(con, pair))
         == Some((if con == "J10" then "J12_" else "J13_") + IntToString(8 - 2 * PairRank(pair)))
  {
    var ch := PairRank(pair) + (if con == "J10" then 1 else 5);
    LvrTwistpairToChTable(con, pair);
    ParseFloatTruncOfIntToString(ch);
    assert PowerCon(ch) == (if con == "J10" then "J12" else "J13");
    assert PowerPin(ch) == 8 - 2 * PairRank(pair);
    assert PowerCon(ch) + "_" == (if con == "J10" then "J12_" else "J13_");
    assert LvrChToPin(IntToString(ch)) == Some(PowerCon(ch) + "_" + IntToString(PowerPin(ch)));
  }

  // ---------------------------------------------------------------------
  // True / mirror PEPIs

  /** `true_mirror`: which PEPI type (true or mirror) sits at side x, top/bot y
      and mag/ip z; "??" for anything unrecognised. */
  function TrueMirror(x: string, y: string, z: string): string
  {
    if x == "C" then
      if y == "top" then (if z == "mag" then "True" else if z == "ip" then "Mirror" else "??")
      else if y == "bot" then (if z == "mag" then "Mirror" else if z == "ip" then "True" else "??")
      else "??"
    else if x == "A" then
      if y == "top" then (if z == "mag" then "Mirror" else if z == "ip" then "True" else "??")
      else if y == "bot" then (if z == "mag" then "True" else if z == "ip" then "Mirror" else "??")
      else "??"
    else "??"
  }

  function Opposite(t: string): string
  {
    if t == "True" then "Mirror" else if t == "Mirror" then "True" else t
  }

  /** The A side is the C side with true and mirror exchanged. */
  lemma TrueMirrorSides(y: string, z: string)
    ensures TrueMirror("A", y, z) == Opposite(TrueMirror("C", y, z))
    ensures TrueMirror("C", y, z) == "??" <==> !((y == "top" || y == "bot") && (z == "mag" || z == "ip"))
  {
  }

  lemma TrueMirrorUnknownSide(x: string, y: string, z: string)
    requires x != "A" && x != "C"
    ensures TrueMirror(x, y, z) == "??"
  {
  }

  /** Result of `z_truemir_to_y_z`: a (y, z) pair, or the string "??". */
  datatype YZ = YZ(y: string, z: string) | Unknown

  /** `z_truemir_to_y_z` (C side): where a true or mirror PEPI of kind z sits.
      Both inputs are compared after ASCII lower-casing. */
  function ZTruemirToYZ(z: string, truemir: string): YZ
  {
    var z := Lower(z);
    var t := Lower(truemir);
    if z == "mag" && t == "true" then YZ("top", z)
    else if z == "mag" && t == "mirror" then YZ("bot", z)
    else if z == "ip" && t == "true" then YZ("bot", z)
    else if z == "ip" && t == "mirror" then YZ("top", z)
    else Unknown
  }

  /** The two orientation tables agree on the C side, case-insensitively, and
      the PEPI type `true_mirror` names is located back where it came from. */
  lemma ZTruemirConsistent(z: string, truemir: string)
    ensures ZTruemirToYZ(z, truemir).YZ? ==>
      Lower(TrueMirror("C", ZTruemirToYZ(z, truemir).y, ZTruemirToYZ(z, truemir).z)) == Lower(truemir)
    ensures ZTruemirToYZ(z, truemir).Unknown? <==>
      !((Lower(z) == "mag" || Lower(z) == "ip") && (Lower(truemir) == "true" || Lower(truemir) == "mirror"))
  {
    assert Lower("True") == "true";
    assert Lower("Mirror") == "mirror";
  }

  lemma ZTruemirOfTrueMirror(y: string, z: string)
    requires (y == "top" || y == "bot") && (z == "mag" || z == "ip")
    ensures ZTruemirToYZ(z, TrueMirror("C", y, z)) == YZ(y, z)
  {
    assert Lower("mag") == "mag";
    assert Lower("ip") == "ip";
    assert Lower("True") == "true";
    assert Lower("Mirror") == "mirror";
  }

  // ---------------------------------------------------------------------
  // PPP pins and twisted pairs

  /** `ppp_ret_pin`: the return pin is the source pin plus 8. */
  function PppRetPin(srcPin: string): Option<string>
  {
    match ParseInt(srcPin)
    case None => None
    case Some(src) => Some(IntToString(src + 8))
  }

  lemma PppRetPinOf(n: int)
    ensures PppRetPin(IntToString(n)).Some?
    ensures ParseInt(PppRetPin(IntToString(n)).value) == Some(n + 8)
  {
    ParseIntOfIntToString(n);
    ParseIntOfIntToString(n + 8);
  }

  /** `twisted_ret`: the partner wire of a twisted pair's source wire. */
  function TwistedRet(src: string): Option<string>
  {
    match ParseInt(src)
    case None => None
    case Some(s) =>
      Some(if s == 1 then "2" else if s == 4 then "5" else if s == 3 then "6" else if s == 7 then "8" else "n/a")
  }

  /** A source wire and its return form exactly the four twisted pairs. */
  lemma TwistedRetPairs(s: int)
    ensures TwistedRet(IntToString(s)).Some?
    ensures TwistedRet(IntToString(s)).value != "n/a" <==> s in {1, 4, 3, 7}
    ensures TwistedRet(IntToString(s)).value != "n/a" ==>
      IsTwistPair(IntToString(s) + "-" + TwistedRet(IntToString(s)).value)
  {
    ParseIntOfIntToString(s);
  }

  /** `check_ppp_color`: positions up to 18 are blue (mag) or green (ip),
      higher ones red (mag) or yellow (ip); other z values always pass.  The
      position number is `int(ppp[1:])`. */
  function CheckPppColor(z: string, ppp: string, color: string): Option<bool>
  {
    match ParseInt(DropFirst(ppp, 1))
    case None => None
    case Some(num) =>
      Some(
        if num <= 18 then
          !(z == "mag" && color != "blu") && !(z == "ip" && color != "grn")
        else
          !(z == "mag" && color != "red") && !(z == "ip" && color != "yel"))
  }

  function ExpectedColor(z: string, num: int): string
    requires z == "mag" || z == "ip"
  {
    if num <= 18 then (if z == "mag" then "blu" else "grn") else (if z == "mag" then "red" else "yel")
  }

  lemma CheckPppColorSpec(z: string, num: int, color: string)
    ensures CheckPppColor(z, "P" + IntToString(num), color).Some?
    ensures (z == "mag" || z == "ip") ==>
      (CheckPppColor(z, "P" + IntToString(num), color).value <==> color == ExpectedColor(z, num))
    ensures !(z == "mag" || z == "ip") ==> CheckPppColor(z, "P" + IntToString(num), color) == Some(true)
  {
    assert DropFirst("P" + IntToString(num), 1) == IntToString(num);
    ParseIntOfIntToString(num);
  }

  // ---------------------------------------------------------------------
  // File names and load labels

  /** `petr_filename_to_xyz`: the last 15 characters of the name start with
      side, top/bot (B/T) and mag/ip (M/I); a shorter name than 3 characters
      raises `IndexError`. */
  function PetrFilenameToXyz(file: string): Option<(string, string, string)>
  {
    var f := TakeLast(file, 15);
    if |f| < 3 then None
    else
      var y := if f[1] == 'B' then "bot" else if f[1] == 'T' then "top" else [f[1]];
      var z := if f[2] == 'M' then "mag" else if f[2] == 'I' then "ip" else [f[2]];
      Some(([f[0]], y, z))
  }

  lemma PetrFilenameOf(dir: string, name: string)
    requires |name| == 15 && name[0] == 'C' && name[1] == 'B' && name[2] == 'M'
    ensures PetrFilenameToXyz(dir + name) == Some(("C", "bot", "mag"))
  {
    assert TakeLast(dir + name, 15) == name;
  }

  /** `load_label_phoebe_to_me`: rewrites a schematic load name, split on "_",
      into the checker's own convention; a name with too few pieces raises
      `IndexError`. */
  function LoadLabelPhoebeToMe(lab: string): Option<string>
  {
    var splt := Split(lab, "_");
    if Contains(Lower(lab), "dcb") then
      if Contains(lab, "25") then
        if |splt| > 3 then Some(splt[3] + "_2V5_" + splt[2] + "-" + splt[1]) else None
      else
        if |splt| > 2 then Some(splt[2] + "_1V5_" + splt[1]) else None
    else
      if |splt| > 4 then Some(splt[2] + "_" + splt[3] + "_" + splt[4]) else None
  }

  /** For a hybrid load name the third to fifth "_"-pieces are kept. */
  lemma LoadLabelHybrid(parts: seq<string>)
    requires |parts| >= 5
    requires forall i :: 0 <= i < |parts| ==> '_' !in parts[i]
    requires !Contains(Lower(Join(parts, "_")), "dcb")
    ensures LoadLabelPhoebeToMe(Join(parts, "_")) == Some(parts[2] + "_" + parts[3] + "_" + parts[4])
  {
    SplitJoin(parts, "_", 0);
  }
}
