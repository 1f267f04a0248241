/** Sense-line splitter boards and the `senseline` record.  A splitter board
    takes sense pairs from an LVR on its output ports and gathers them on its
    input ports; each board type has a fixed wiring table from an output
    (port, twisted pair) to an input (port, twisted pair). */
module Splitters {
  import opened Text
  import opened Lookups

  /** What a wiring table gives: the input (port, pair); `NoRoute` for an
      output port the board does not have (the Python returns `False`); and
      `Unlisted` for a pair the table does not list on an existing port (the
      Python falls off the end of the function and returns `None`). */
  datatype Routing = Routed(port: string, pair: string) | NoRoute | Unlisted

  /** `spltr1` */
  function Spltr1(port: string, pair: string): Routing
  {
    if port == "a" then
      if pair == "1-2" then Routed("-", "1-2")
      else if pair == "3-6" then Routed("-", "3-6")
      else Unlisted
    else if port == "b" then
      if pair == "1-2" then Routed("-", "4-5")
      else if pair == "3-6" then Routed("-", "7-8")
      else Unlisted
    else NoRoute
  }

  /** `spltr2` */
  function Spltr2(port: string, pair: string): Routing
  {
    if port == "a" then
      if pair == "1-2" then Routed("1", "1-2")
      else if pair == "4-5" then Routed("1", "4-5")
      else if pair == "3-6" then Routed("2", "3-6")
      else if pair == "7-8" then Routed("1", "7-8")
      else Unlisted
    else if port == "b" then
      if pair == "1-2" then Routed("3", "1-2")
      else if pair == "4-5" then Routed("3", "4-5")
      else if pair == "3-6" then Routed("2", "7-8")
      else if pair == "7-8" then Routed("3", "7-8")
      else Unlisted
    else NoRoute
  }

  /** `spltr3` */
  function Spltr3(port: string, pair: string): Routing
  {
    if port == "a" then
      if pair == "1-2" then Routed("1", "1-2")
      else if pair == "4-5" then Routed("2", "1-2")
      else if pair == "3-6" then Routed("1", "3-6")
      else Unlisted
    else if port == "b" then
      if pair == "1-2" then Routed("1", "4-5")
      else if pair == "4-5" then Routed("2", "4-5")
      else if pair == "3-6" then Routed("1", "7-8")
      else if pair == "7-8" then Routed("2", "7-8")
      else Unlisted
    else NoRoute
  }

  /** `spltr4`: the type 1 table, refusing (returning `False`) any route into
      input pair 7-8.  When the type 1 table has no entry (`None`), the Python
      indexes `None` and raises `TypeError`, modelled as the outer `None`. */
  function Spltr4(port: string, pair: string): Option<Routing>
  {
    var ret := Spltr1(port, pair);
    if ret.Unlisted? then None
    else if ret.Routed? && ret.pair == "7-8" then Some(NoRoute)
    else Some(ret)
  }

  /** `spltr6` */
  function Spltr6(port: string, pair: string): Routing
  {
    if port == "a" then
      if pair == "1-2" then Routed("1", "4-5")
      else if pair == "3-6" then Routed("1", "7-8")
      else Unlisted
    else if port == "b" then
      if pair == "1-2" then Routed("1", "1-2")
      else if pair == "4-5" then Routed("3", "1-2")
      else if pair == "3-6" then Routed("1", "3-6")
      else if pair == "7-8" then Routed("2", "1-2")
      else Unlisted
    else if port == "c" then
      if pair == "1-2" then Routed("2", "4-5")
      else if pair == "3-6" then Routed("2", "7-8")
      else Unlisted
    else if port == "d" then
      if pair == "1-2" then Routed("3", "4-5")
      else if pair == "3-6" then Routed("3", "7-8")
      else Unlisted
    else NoRoute
  }

  /** The wiring table of board type `t` ('1', '2', '3', '4' or '6'); for
      type 4 the crash case reads as `Unlisted`. */
  function Table(t: char, port: string, pair: string): Routing
  {
    if t == '1' then Spltr1(port, pair)
    else if t == '2' then Spltr2(port, pair)
    else if t == '3' then Spltr3(port, pair)
    else if t == '4' then (match Spltr4(port, pair) case None => Unlisted case Some(r) => r)
    else Spltr6(port, pair)
  }

  predicate IsBoardType(t: char) { t == '1' || t == '2' || t == '3' || t == '4' || t == '6' }

  /** Every route a table defines ends on one of the four twisted pairs. */
  lemma RoutesEndOnTwistPairs(t: char, port: string, pair: string)
    requires IsBoardType(t) && Table(t, port, pair).Routed?
    ensures IsTwistPair(Table(t, port, pair).pair)
  {
  }

  /** The output (port, pair) wired to a board input, read off the tables
      backwards; ("", "") for an input no output reaches. */
  function Source(t: char, port: string, pair: string): (string, string)
  {
    if t == '1' || t == '4' then
      if port == "-" && pair == "1-2" then ("a", "1-2")
      else if port == "-" && pair == "3-6" then ("a", "3-6")
      else if port == "-" && pair == "4-5" then ("b", "1-2")
      else if port == "-" && pair == "7-8" && t == '1' then ("b", "3-6")
      else ("", "")
    else if t == '2' then
      if port == "1" && pair == "1-2" then ("a", "1-2")
      else if port == "1" && pair == "4-5" then ("a", "4-5")
      else if port == "2" && pair == "3-6" then ("a", "3-6")
      else if port == "1" && pair == "7-8" then ("a", "7-8")
      else if port == "3" && pair == "1-2" then ("b", "1-2")
      else if port == "3" && pair == "4-5" then ("b", "4-5")
      else if port == "2" && pair == "7-8" then ("b", "3-6")
      else if port == "3" && pair == "7-8" then ("b", "7-8")
      else ("", "")
    else if t == '3' then
      if port == "1" && pair == "1-2" then ("a", "1-2")
      else if port == "2" && pair == "1-2" then ("a", "4-5")
      else if port == "1" && pair == "3-6" then ("a", "3-6")
      else if port == "1" && pair == "4-5" then ("b", "1-2")
      else if port == "2" && pair == "4-5" then ("b", "4-5")
      else if port == "1" && pair == "7-8" then ("b", "3-6")
      else if port == "2" && pair == "7-8" then ("b", "7-8")
      else ("", "")
    else
      if port == "1" && pair == "4-5" then ("a", "1-2")
      else if port == "1" && pair == "7-8" then ("a", "3-6")
      else if port == "1" && pair == "1-2" then ("b", "1-2")
      else if port == "3" && pair == "1-2" then ("b", "4-5")
      else if port == "1" && pair == "3-6" then ("b", "3-6")
      else if port == "2" && pair == "1-2" then ("b", "7-8")
      else if port == "2" && pair == "4-5" then ("c", "1-2")
      else if port == "2" && pair == "7-8" then ("c", "3-6")
      else if port == "3" && pair == "4-5" then ("d", "1-2")
      else if port == "3" && pair == "7-8" then ("d", "3-6")
      else ("", "")
  }

  /** Reading a route backwards gives the output it came from. */
  lemma SourceOfRoute(t: char, port: string, pair: string)
    requires IsBoardType(t) && Table(t, port, pair).Routed?
    ensures Source(t, Table(t, port, pair).port, Table(t, port, pair).pair) == (port, pair)
  {
    if t == '2' {
      SourceOfRoute2(port, pair);
    } else if t == '3' {
      SourceOfRoute3(port, pair);
    } else if t == '6' {
      SourceOfRoute6(port, pair);
    }
  }

  lemma SourceOfRoute2(port: string, pair: string)
    requires Spltr2(port, pair).Routed?
    ensures Source('2', Spltr2(port, pair).port, Spltr2(port, pair).pair) == (port, pair)
  {
  }

  lemma SourceOfRoute3(port: string, pair: string)
    requires Spltr3(port, pair).Routed?
    ensures Source('3', Spltr3(port, pair).port, Spltr3(port, pair).pair) == (port, pair)
  {
  }

  lemma SourceOfRoute6(port: string, pair: string)
    requires Spltr6(port, pair).Routed?
    ensures Source('6', Spltr6(port, pair).port, Spltr6(port, pair).pair) == (port, pair)
  {
  }

  /** Within one board type, two outputs never share an input (port, pair). */
  lemma RoutesInjective(t: char, p1: string, q1: string, p2: string, q2: string)
    requires IsBoardType(t) && Table(t, p1, q1).Routed? && Table(t, p1, q1) == Table(t, p2, q2)
    ensures p1 == p2 && q1 == q2
  {
    SourceOfRoute(t, p1, q1);
    SourceOfRoute(t, p2, q2);
  }

  /** A table answers `NoRoute` exactly for the ports the board lacks. */
  lemma NoRouteIsMissingPort(t: char, port: string, pair: string)
    requires IsBoardType(t) && t != '4'
    ensures Table(t, port, pair).NoRoute? <==>
      !(port == "a" || port == "b" || (t == '6' && (port == "c" || port == "d")))
  {
  }

  lemma Type2CrossedPair()
    ensures Spltr2("a", "3-6") == Routed("2", "3-6")
    ensures Spltr2("b", "3-6") == Routed("2", "7-8")
  {
  }

  /** Type 4 is type 1 with routes into pair 7-8 refused; where type 1 has no
      entry, type 4 raises.  Output b/3-6 of a type 4 board is therefore always
      refused. */
  lemma Type4IsType1(port: string, pair: string)
    ensures Spltr4(port, pair).None? <==> Spltr1(port, pair).Unlisted?
    ensures Spltr1(port, pair).Routed? && Spltr1(port, pair).pair != "7-8" ==>
      Spltr4(port, pair) == Some(Spltr1(port, pair))
    ensures Spltr1(port, pair).Routed? && Spltr1(port, pair).pair == "7-8" ==> Spltr4(port, pair) == Some(NoRoute)
    ensures Spltr1(port, pair).NoRoute? ==> Spltr4(port, pair) == Some(NoRoute)
    ensures Spltr4("b", "3-6") == Some(NoRoute)
  {
  }

  // ---------------------------------------------------------------------
  // Splitter labels

  datatype SpltrKind = Direct | Typed(t: char)

  /** `get_spltr_type`: a label without 'S' is a direct cable, otherwise its
      second character is the board type (a one-character label with an 'S'
      raises `IndexError`, modelled as `None`). */
  function SpltrType(lab: string): Option<SpltrKind>
  {
    if !('S' in lab) then Some(Direct)
    else if |lab| < 2 then None
    else Some(Typed(lab[1]))
  }

  // ---------------------------------------------------------------------
  // The sense line record

  /** `senseline`: one traced sense pair, from LVR (crate, slot, LVR, connector
      and pair) through the splitter (label, output port, input port and pair)
      to the sense label, the true and mirror PPP couplers and the tBB port. */
  datatype SenseLine = SenseLine(
    crate: string, slot: string, lvr: string, lvrCon: string, lvrTwistpair: string,
    spltr: string, outSpltr: string, inSpltr: string, inTwistpair: string,
    inLabel: string, pppTrue: string, pppMir: string, tbbCon: string)

  /** `in_spltr_lab`: "-" for a direct cable, the label for types 1 and 4,
      label and input port for types 2, 3 and 6.  For any other type the Python
      returns `None`, which the CSV writer writes as an empty cell: modelled
      as "".  The outer `None` is the crash of `SpltrType`. */
  function InSpltrLab(sl: SenseLine): Option<string>
  {
    match SpltrType(sl.spltr)
    case None => None
    case Some(Direct) => Some("-")
    case Some(Typed(t)) =>
      Some(if t == '1' || t == '4' then sl.spltr
           else if t == '2' || t == '3' || t == '6' then sl.spltr + "_" + sl.inSpltr
           else "")
  }

  /** `out_spltr_lab`: "direct", or "Type <t> - OUT <port>" for a known type,
      "" (the Python `None`) otherwise. */
  function OutSpltrLab(sl: SenseLine): Option<string>
  {
    match SpltrType(sl.spltr)
    case None => None
    case Some(Direct) => Some("direct")
    case Some(Typed(t)) =>
      Some(if IsBoardType(t) then "Type " + [t] + " - OUT " + sl.outSpltr else "")
  }

  /** Both labels exist exactly when the splitter label can be classified, and
      a direct cable is never shown with a board type. */
  lemma SpltrLabsDefined(sl: SenseLine)
    ensures InSpltrLab(sl).Some? <==> SpltrType(sl.spltr).Some?
    ensures OutSpltrLab(sl).Some? <==> SpltrType(sl.spltr).Some?
    ensures !('S' in sl.spltr) ==> InSpltrLab(sl) == Some("-") && OutSpltrLab(sl) == Some("direct")
    ensures SpltrType(sl.spltr) == Some(Typed('2')) ==>
      InSpltrLab(sl) == Some(sl.spltr + "_" + sl.inSpltr) && OutSpltrLab(sl) == Some("Type 2 - OUT " + sl.outSpltr)
  {
    assert "Type " + ['2'] + " - OUT " + sl.outSpltr == "Type 2 - OUT " + sl.outSpltr;
  }

  /** `get_bp`: the backplane is the sense label up to its first "_". */
  function GetBp(sl: SenseLine): string
  {
    Split(sl.inLabel, "_")[0]
  }

  /** Key of a sense pair in the tBB map: "<tBB port>_<input pair>". */
  function TbbKey(sl: SenseLine): string
  {
    sl.tbbCon + "_" + sl.inTwistpair
  }

  /** `get_flex`: first "_"-piece of the tBB entry, "n/a" when there is none. */
  function GetFlex(sl: SenseLine, tbb: map<string, string>): string
  {
    if TbbKey(sl) !in tbb then "n/a" else Split(tbb[TbbKey(sl)], "_")[0]
  }

  /** `get_load`: second "_"-piece of the tBB entry, "n/a" when there is none;
      an entry without "_" raises `IndexError`, modelled as `None`. */
  function GetLoad(sl: SenseLine, tbb: map<string, string>): Option<string>
  {
    if TbbKey(sl) !in tbb then Some("n/a")
    else
      var parts := Split(tbb[TbbKey(sl)], "_");
      if |parts| > 1 then Some(parts[1]) else None
  }

  /** The tBB map stores "<flex>_<load>"; reading it back gives both parts. */
  lemma FlexLoadRoundTrip(sl: SenseLine, tbb: map<string, string>, flex: string, load: string)
    requires TbbKey(sl) in tbb && tbb[TbbKey(sl)] == flex + "_" + load
    requires '_' !in flex && '_' !in load
    ensures GetFlex(sl, tbb) == flex && GetLoad(sl, tbb) == Some(load)
  {
    assert Join([flex, load], "_") == flex + "_" + load;
    SplitJoin([flex, load], "_", 0);
  }

  lemma GetBpOf(sl: SenseLine, parts: seq<string>)
    requires |parts| > 0 && sl.inLabel == Join(parts, "_")
    requires forall i :: 0 <= i < |parts| ==> '_' !in parts[i]
    ensures GetBp(sl) == parts[0]
  {
    SplitJoin(parts, "_", 0);
  }

  // ---------------------------------------------------------------------
  // Which sense pairs exist

  /** LVR power pins that feed slave loads and so carry no sense pair
      (check_mappings.py:519-544), grouped by connector and pin: each
      entry lists the LVR boards whose pin is a slave pin. */
  const SlaveTable: seq<(string, seq<int>)> := [
    ("J12_6", [9, 10, 11, 21, 22, 23, 25, 26, 27, 28, 30, 31, 33,
               43, 44, 45, 53, 54, 55, 57, 58, 59, 60, 62, 63, 64]),
    ("J12_2", [9, 10, 11, 21, 22, 23, 25, 26, 27, 28, 29, 30, 31, 32, 33,
               43, 44, 45, 53, 54, 55, 57, 58, 59, 60, 61, 62, 63, 64]),
    ("J13_6", [9, 10, 21, 22, 25, 26, 27, 28, 30, 31, 33,
               43, 44, 53, 54, 57, 58, 59, 60, 62, 63, 64]),
    ("J13_2", [9, 10, 21, 22, 25, 26, 27, 28, 29, 30, 31, 32, 33,
               43, 44, 53, 54, 57, 58, 59, 60, 61, 62, 63, 64])]

  /** `key` is "<board>_<pin>" for one of `boards`. */
  predicate SlaveOnPin(key: string, pin: string, boards: seq<int>)
  {
    |boards| > 0 && (key == IntToString(boards[0]) + "_" + pin || SlaveOnPin(key, pin, boards[1..]))
  }

  predicate SlaveIn(key: string, table: seq<(string, seq<int>)>)
  {
    |table| > 0 && (SlaveOnPin(key, table[0].0, table[0].1) || SlaveIn(key, table[1..]))
  }

  /** `key` is in the slave list. */
  predicate IsSlave(key: string)
  {
    SlaveIn(key, SlaveTable)
  }

  lemma {:induction false} SlaveOnPinEndsLikePin(key: string, pin: string, boards: seq<int>)
    requires |pin| > 0 && SlaveOnPin(key, pin, boards)
    ensures |key| > 0 && key[|key| - 1] == pin[|pin| - 1]
  {
    if key != IntToString(boards[0]) + "_" + pin {
      SlaveOnPinEndsLikePin(key, pin, boards[1..]);
    }
  }

  lemma {:induction false} SlaveInEndsLikePin(key: string, table: seq<(string, seq<int>)>)
    requires forall i :: 0 <= i < |table| ==> table[i].0 == "J12_6" || table[i].0 == "J12_2" || table[i].0 == "J13_6" || table[i].0 == "J13_2"
    requires SlaveIn(key, table)
    ensures |key| > 0 && (key[|key| - 1] == '6' || key[|key| - 1] == '2')
  {
    var pin := table[0].0;
    assert pin == "J12_6" || pin == "J12_2" || pin == "J13_6" || pin == "J13_2";
    if SlaveOnPin(key, pin, table[0].1) {
      SlaveOnPinEndsLikePin(key, pin, table[0].1);
    } else {
      SlaveInEndsLikePin(key, table[1..]);
    }
  }

  /** Every slave key ends in pin 6 or pin 2. */
  lemma SlavePinDigit(key: string)
    requires IsSlave(key)
    ensures |key| > 0 && (key[|key| - 1] == '6' || key[|key| - 1] == '2')
  {
    SlaveInEndsLikePin(key, SlaveTable);
  }

  /** The power-map key "<lvr>_<J12|J13>_<pin>" of a sense pair. */
  function PowerKey(lvr: int, con: string, pair: string): Option<string>
  {
    match LvrChToPin(LvrTwistpairToCh(con, pair))
    case None => None
    case Some(pin) => Some(IntToString(lvr) + "_" + pin)
  }

  /** `senseline_used`: the sense pair exists when its power pin is in the
      power map and is not a slave pin.  An unknown connector or pair makes
      `lvr_ch_to_pin` raise, modelled as `None`. */
  function SenselineUsed(lvr: int, con: string, pair: string, powerKeys: set<string>): Option<bool>
  {
    match PowerKey(lvr, con, pair)
    case None => None
    case Some(key) => Some(key in powerKeys && !IsSlave(key))
  }

  /** For a real connector and pair the power key is defined and names the
      pin that carries the pair's channel. */
  lemma PowerKeyOf(lvr: int, con: string, pair: string)
    requires IsSenseCon(con) && IsTwistPair(pair)
    ensures PowerKey(lvr, con, pair) ==
      Some(IntToString(lvr) + "_" + (if con == "J10" then "J12_" else "J13_") + IntToString(8 - 2 * PairRank(pair)))
    ensures SenselineUsed(lvr, con, pair, {}) == Some(false)
  {
    SensePairPowerPin(con, pair);
    var c := if con == "J10" then "J12_" else "J13_";
    var pin := IntToString(8 - 2 * PairRank(pair));
    assert IntToString(lvr) + "_" + (c + pin) == IntToString(lvr) + "_" + c + pin;
  }

  /** Slave pins are all pin 6 or pin 2, so pairs 1-2 and 3-6 (pins 8 and 4)
      are used exactly when the power map has their pin. */
  lemma MasterPairsUsed(lvr: int, con: string, pair: string, powerKeys: set<string>)
    requires IsSenseCon(con) && (pair == "1-2" || pair == "3-6")
    ensures SenselineUsed(lvr, con, pair, powerKeys).Some?
    ensures SenselineUsed(lvr, con, pair, powerKeys).value <==> PowerKey(lvr, con, pair).value in powerKeys
  {
    PowerKeyOf(lvr, con, pair);
    var key := PowerKey(lvr, con, pair).value;
    var pin := IntToString(8 - 2 * PairRank(pair));
    assert pin == "8" || pin == "4";
    assert key[|key| - 1] == '8' || key[|key| - 1] == '4';
    if IsSlave(key) {
      SlavePinDigit(key);
    }
  }
}
