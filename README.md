# LV cavern mapping: reconciliation core in Dafny

This project models the record-reconciliation core of the LV (low-voltage)
cable-map checker for the silicon tracking station. The checker exists as two
Python scripts: `check_mappings.py` (the newer, fuller one) and
`check_fix_mapping_ppp.py` (an older variant). Each power line runs from an LVR (low-voltage regulator)
channel through a PPP (patch panel) positronic connector to a PEPI
backplane and its load. The model covers the following:

- **Cable lines.** A line (`Lines.Line`, a class with the script's 17 fields) has identity fields
  (side x, top/bot y, mag/ip z, backplane, backplane connector, flex, load, M/S/A, PPP position and pin)
  and annotation fields (LVR, channel, lengths, labels). The setters change the annotations in place.
  The three comparisons are `equal_minus_ppp`, `equal_pepi_ppp` and `__eq__`.
- **Lookups.** The lookup tables: backplane connector notations, sense-pair to channel, channel to
  power pin, true/mirror PEPI orientation, PPP return pin, twisted pairs, PPP colours, file-name
  decoding and load labels.
- **Splitter routing.** The routing tables of splitter types 1, 2, 3, 4 and 6. The one-hop sense-line
  trace through the layout sheet (`parse_cavern_sense`), gated by `senseline_used`.
- **Splice consolidation.** At the end of the cavern parse, "splice" stubs are folded into their
  sibling line. Un-splicing undoes this before the per-channel comparison.
- **The matcher of `cavern_check_fix`.** It annotates the nominal lines from the cavern lines and pairs
  each cavern line with a nominal line. After a position swap (`parse_swap_pos`, scoped in the newer
  script and unconditional in the older one) it pairs the moved lines again. The typo check runs
  before it.
- **Report shaping.** `sort_by_surf_ppp_layer`, `count_positronic`/`add_pop_col`, and the CCTB bench
  tables (`organize_cctb_table`, `organize_cctb_sense_table`).
- **The LVR-to-load check.** It compares each cavern LVR label with the LV schematics.

Python's crashes are modelled as explicit failure outcomes (`None`, `Err`). Examples:
`.item()` on anything but one row, indexing an undefined routing, a label without `" | "`, and a
failed `int(...)`. Printed diagnostics become returned warning lists. The dictionaries keyed by
line objects become sequences aligned with the cavern lines, whose entries point into the nominal
list by index. Python's `sorted` is modelled as a stable sort (`Sorting.SortBy`).

Modules: `Text` (string helpers with the semantics of Python's `str`), `Lookups`, `Lines`,
`Splitters`, `SenseTrace`, `Splice`, `Matcher`, `Swap`, `Sorting`, `Report`, `Cctb`, `LoadCheck`.

## Design description versus code

Where the design description of the system and the scripts disagree, the model follows the code:

- **Annotations are not write-once.** Every nominal line that matches a cavern line is annotated again
  by each later matching cavern line. The last match wins (`Matcher.MatchAllFinal`,
  `Matcher.AnnotateOverwrites`).
- **Undefined routing aborts the whole trace.** An undefined splitter routing, or a lookup that does not
  find exactly one row, makes `parse_cavern_sense` raise. So the model aborts the whole parse
  (`SenseTrace.TraceFailsIff`), not one channel.
- **The trace makes one hop.** It does not repeat until a direct cable is reached.
- **Sibling detection uses full `__eq__`.** A splice stub's sibling must have the same PPP position and
  pin, not only the same identity-minus-position. A stub with several siblings is folded into every
  one of them; it is not skipped (`Splice.ConsolidateSplices`, `Splice.SiblingCountKept`).

## Model

| member | source | states |
|---|---|---|
| Text.NatToString | check_mappings.py:1309 | the decimal string of n is non-empty, all digits, has no leading zero, and denotes n |
| Text.ParseIntOfIntToString | check_mappings.py:470-473 | `int(str(n)) == n` for every integer |
| Text.ParseFloatTruncOfIntToString | check_mappings.py:1309 | `int(float(str(n))) == n`, so a channel rewritten as an integer string reads back as itself |
| Text.Find | check_mappings.py:121 | the result is the first occurrence of the pattern, or none exists at any position |
| Text.Split | check_mappings.py:101 | `str.split` always yields at least one piece |
| Text.JoinSplit | check_mappings.py:1305-1306 | joining the pieces of a split with the same separator gives back the string |
| Text.SplitJoin | check_mappings.py:1305-1306 | splitting a join of pieces that do not contain the separator's marker character gives back the pieces |
| Text.ReplaceUndone | check_mappings.py:1344 | `replace` loses nothing: when the string has no "_", replacing " - " by "_" and back gives the string again |
| Text.Lower | check_mappings.py:437-445 | `lower()` keeps the length and lower-cases each character |
| Lookups.MirrorShiftInvolution | check_mappings.py:217-224 | the mirror index shift maps 0..11 into 0..11 and applied twice is the identity |
| Lookups.BpConJPToAltOfName | check_mappings.py:217-224 | `bp_con_JP_to_alt("JPn", m)` is the alternative label at the (mirror-shifted) index n |
| Lookups.AltLabelsDistinct | check_mappings.py:217-224 | the twelve alternative connector labels are pairwise distinct |
| Lookups.FirstJPIsFirst | check_mappings.py:226-230 | the search returns the first JP index whose label is the given one, or none has it |
| Lookups.BpConAltToJP | check_mappings.py:226-230 | the loop returns "JPn" for the first n whose alternative label matches, and nothing when none does |
| Lookups.AltToJPRoundTrip | check_fix_mapping_ppp.py:132-145 | `bp_con_alt_to_JP(bp_con_JP_to_alt("JPn", m), m) == "JPn"` for n in 0..11 and either orientation |
| Lookups.LvrTwistpairToChTable | check_mappings.py:233-247 | J10 pairs 1-2/4-5/3-6/7-8 give channels 1-4 and J16 pairs give 5-8; any other input gives a string of '?' |
| Lookups.SensePairPowerPin | check_mappings.py:254-264 | the channel of each sense pair lands on power pins J12 (J10) or J13 (J16) 8, 6, 4, 2 in pair order |
| Lookups.TrueMirrorSides | check_fix_mapping_ppp.py:250-271 | A side is always the opposite of C side, and the result is "??" exactly for unknown y or z |
| Lookups.TrueMirrorUnknownSide | check_mappings.py:447-468 | a side other than A or C gives "??" |
| Lookups.ZTruemirConsistent | check_fix_mapping_ppp.py:240-248 | a located (y, z) has C-side orientation equal to the input (case-insensitively); unknown exactly for unknown z or orientation |
| Lookups.ZTruemirOfTrueMirror | check_fix_mapping_ppp.py:240-271 | locating the C-side orientation of (y, z) gives back (y, z) |
| Lookups.PppRetPinOf | check_mappings.py:470-473 | the return pin of an integer pin exists and is that pin plus 8 |
| Lookups.TwistedRetPairs | check_mappings.py:475-483 | the return wire is defined exactly for source wires 1, 4, 3, 7 and then forms one of the four twisted pairs |
| Lookups.CheckPppColorSpec | check_mappings.py:497-509 | for mag/ip a colour passes exactly when it is the expected one for the position number; other z always pass |
| Lookups.PetrFilenameOf | check_mappings.py:485-494 | a 15-character file name starting with "CBM" decodes as C side, bottom, magnet |
| Lookups.LoadLabelHybrid | check_mappings.py:334-342 | a hybrid load label (no "dcb") of at least five "_"-pieces is rewritten as its pieces 2, 3 and 4 |
| Lines.SameLineSplits | check_mappings.py:140-145 | `==` holds exactly when `equal_minus_ppp` holds and PPP position and pin agree; so it implies both other comparisons |
| Lines.ComparisonsIgnoreAnnotations | check_mappings.py:73-81 | none of the three comparisons looks at LVR, channel, lengths or labels |
| Lines.StoredLengthIdempotent | check_fix_mapping_ppp.py:75-82 | "splice" and any value holding "&#124;" are stored verbatim, and storing twice is storing once (for an idempotent normalisation) |
| Lines.Channels | check_mappings.py:101-104 | every channel piece is read with `int(float(...))`; failure exactly when some piece does not parse |
| Lines.ChannelsOf | check_mappings.py:101-104 | pieces that parse to given channels are read as exactly those channels |
| Lines.LvrPinsOfChannels | check_mappings.py:100-117 | `get_lvr_pins` is one "lvr - con - p/p-1" segment per " Y "-separated channel, joined by "  Y  " |
| Lines.MirrorBoardIsMirror | check_mappings.py:119-127 | the flip's mirror test agrees with `true_mirror` giving "Mirror" |
| Lines.FlipKeeps | check_mappings.py:119-138 | a flipped non-DCB line toggles the flex initial X/S, takes the JP connector of the toggled flex, keeps identity, PPP, LVR and channel and resets the labels to "NA" |
| Lines.FlipLeavesDcb | check_mappings.py:121 | a DCB ("JD") line is returned unchanged |
| Lines.FlipRecHybrid | check_mappings.py:119-138 | when the toggled flex is an alternative label, the flip succeeds with its JP connector and changes nothing else but labels |
| Lines.FlipStep | check_fix_mapping_ppp.py:92-111 | a hybrid line whose flex is a connector label flips to another such line with the flex toggled back to the original |
| Lines.FlipTwice | check_fix_mapping_ppp.py:92-111 | flipping a consistent hybrid line twice restores its flex and backplane connector |
| Lines.Line.constructor | check_mappings.py:53-71 | a new line has the given identity, lengths/LVR/channel "-1" and labels "NA" |
| Lines.Line.SetLength | check_mappings.py:83-90 | only the two lengths change, each stored as `set_length` stores it |
| Lines.Line.SetLvr | check_mappings.py:92-94 | only LVR and channel change |
| Lines.Line.SetLabels | check_mappings.py:96-98 | only the two labels change |
| Lines.Line.GetLvrPins | check_mappings.py:100-117 | the loop's result is the pin string of the line's channels, or failure when a channel does not parse |
| Lines.Line.FlipStereoStraight | check_mappings.py:119-138 | the flipped line is a fresh line with the flipped value, or the line itself for a DCB |
| Splitters.RoutesEndOnTwistPairs | check_mappings.py:268-331 | every defined routing of every type ends on one of the pairs 1-2/4-5/3-6/7-8 |
| Splitters.SourceOfRoute | check_mappings.py:268-331 | an independent inverse table recovers the egress (port, pair) from every defined ingress result |
| Splitters.RoutesInjective | check_mappings.py:268-331 | within a type, distinct defined inputs give distinct ingress (port, pair) |
| Splitters.NoRouteIsMissingPort | check_mappings.py:268-331 | types 1, 2, 3, 6 refuse an input exactly when its port is not one of the board's outputs |
| Splitters.Type2CrossedPair | check_mappings.py:278-290 | type 2 maps (a, 3-6) to (2, 3-6) and (b, 3-6) to (2, 7-8) |
| Splitters.Type4IsType1 | check_mappings.py:306-311 | type 4 is type 1 except that routes into pair 7-8 are refused, and it raises where type 1 has no entry |
| Splitters.SpltrLabsDefined | check_mappings.py:176-188 | splitter labels exist exactly for a known type; a label without "S" is direct, with ingress "-" |
| Splitters.FlexLoadRoundTrip | check_mappings.py:194-206 | flex and load read back the two halves of the "flex_load" entry of the tBB map |
| Splitters.GetBpOf | check_mappings.py:190-191 | the backplane is the sense label up to its first "_" |
| Splitters.SlavePinDigit | check_mappings.py:512-546 | every slave key in the fixed list is on power pin 6 or 2 |
| Splitters.PowerKeyOf | check_mappings.py:512-546 | the key of a sense pair is "lvr_J12/J13_pin" with pin 8, 6, 4, 2; with no power map nothing is used |
| Splitters.MasterPairsUsed | check_mappings.py:512-546 | pairs 1-2 and 3-6 are used exactly when their power key is in the power map |
| SenseTrace.TraceOneSound | check_mappings.py:838-872 | a traced sense line comes from the one layout row of its LVR port and a layout row holding its label; direct means ingress "-" with the egress pair; otherwise ingress is the type's routing |
| SenseTrace.InLabelNamesInputRow | check_mappings.py:850-862 | for types 2, 3 and 6 the ingress label names the input of the row the label was read from |
| SenseTrace.TraceEmitsUsedPairs | check_mappings.py:830-873 | the j-th sense line is the j-th used (lvr, con, pair) in the order lvr 1..67, J10/J16, 1-2/4-5/3-6/7-8, and only used pairs are emitted |
| SenseTrace.UsedPairsAreTraced | check_mappings.py:830-833 | a (lvr, con, pair) is traced exactly when `senseline_used` holds for it |
| SenseTrace.TraceFailsIff | check_mappings.py:838-872 | the parse fails exactly when some used pair cannot be traced |
| SenseTrace.NothingUsedWithoutPower | check_mappings.py:830-833 | with an empty power map no sense line is emitted |
| SenseTrace.ParseCavernSense | check_mappings.py:824-873 | the nested loops compute the specified parse |
| SenseTrace.TraceLvrs | check_mappings.py:830 | the outer loop collects the lines of LVRs 1..n |
| SenseTrace.TraceLvr | check_mappings.py:831-832 | the loops over connectors and pairs extend the collection by one LVR |
| SenseTrace.TracePair | check_mappings.py:833-872 | one iteration extends the collection by one key |
| Splice.MergedKeeps | check_mappings.py:669-674 | absorbing stubs changes only LVR channel and label |
| Splice.StubUnmerged | check_mappings.py:669-674 | a stub never absorbs anything |
| Splice.MergedJoins | check_mappings.py:669-674 | a line's channel and label become its own followed by those of its sibling stubs in order, joined by " Y " and "   Y   " |
| Splice.ConsolidatedIsNonStubs | check_mappings.py:665-679 | the result is exactly the non-stub lines in order, each changed only in channel and label |
| Splice.NoStubsNoChange | check_mappings.py:665-679 | input without stubs passes through unchanged, with no warnings |
| Splice.SiblingCountKept | check_mappings.py:669-675 | the sibling count of a stub is the same before and after merging, so the warning tests the original lines |
| Splice.ConsolidateSplices | check_mappings.py:665-679 | each line object ends merged with its sibling stubs, the result is the non-stub objects in order, and the warnings are the stubs with 0 or more than 1 siblings |
| Splice.VisitAll | check_mappings.py:666-675 | after the outer loop every line holds its merged value and the warnings are collected |
| Splice.VisitLine | check_mappings.py:667-675 | one outer iteration absorbs the visited stub into its siblings and records a warning if needed |
| Splice.KeepNonStubs | check_mappings.py:676-677 | the filter keeps the non-stub line objects in order |
| Splice.SpliceInto | check_mappings.py:669-674 | the inner loop absorbs the stub into each sibling and counts them |
| Splice.AbsorbIfSibling | check_mappings.py:670-674 | a sibling gains the stub's channel and label; any other line is unchanged |
| Splice.Copies | check_mappings.py:1307-1314 | copy i differs from the line only in channel i and label i |
| Splice.UnspliceCopies | check_mappings.py:1303-1314 | one copy per channel piece carrying that channel as an integer string and the label piece at the same place; failure exactly when a piece does not parse or labels run out |
| Splice.MergeThenUnsplice | check_mappings.py:1303-1314 | un-splicing a consolidated line gives back one copy per original line, with its own channel and label |
| Splice.UnspliceJoined | check_mappings.py:1303-1314 | a line whose channel and label are joins of equally many pieces un-splices into one copy per piece |
| Splice.UnspliceLines | check_mappings.py:1303-1314 | the loop computes all comparison lines in order, or fails |
| Splice.UnspliceLine | check_mappings.py:1305-1314 | the inner loop computes the copies of one line |
| Splice.UnspliceAbort | check_mappings.py:1309 | one line that cannot be un-spliced makes the whole comparison fail |
| Matcher.LastMatch | check_mappings.py:1119-1129 | the pairing is the last nominal line that matches, or the placeholder exactly when none does |
| Matcher.CountZero | check_mappings.py:1121-1131 | the match count is zero exactly when the pairing is the placeholder |
| Matcher.NotFoundWarnings | check_mappings.py:1131-1142 | an unmatched cavern line gets "not found", never "more than one", and "wrong PPP" exactly when it differs from the placeholder |
| Matcher.AnnotateOverwrites | check_mappings.py:1122-1128 | annotating depends only on the line's identity, so a later match overwrites an earlier one completely; identity is kept |
| Matcher.AnnotateFails | check_mappings.py:1125-1128 | annotating raises exactly when the cavern PPP label has no " &#124; " or the nominal pin is not an integer |
| Matcher.AnnotatedLabelTail | check_mappings.py:1125-1128 | the new PPP label ends with the cavern label's piece after " &#124; " |
| Matcher.Pass | check_mappings.py:1120-1129 | one pass annotates every matching nominal line and leaves the others; failure exactly when one annotation fails |
| Matcher.MatchAll | check_mappings.py:1115-1144 | the result has one nominal line per input and one pairing per cavern line |
| Matcher.MatchAllFinal | check_mappings.py:1115-1144 | the matcher fails exactly when a matching pair cannot be annotated; otherwise each nominal line ends annotated by the last cavern line it matches, or unchanged |
| Matcher.MatchAllRefs | check_mappings.py:1115-1144 | the pairing and warnings are those computed against the unannotated nominal lines |
| Matcher.LastMatchIds | check_mappings.py:1120-1130 | annotating nominal lines does not change which one a cavern line matches |
| Matcher.AnnotateLine | check_mappings.py:1123-1128 | the three setters give the line the annotated value, or report the failure |
| Matcher.MatchOne | check_mappings.py:1119-1130 | the inner loop annotates every matching nominal object and returns the count and the last match |
| Matcher.VisitNominal | check_mappings.py:1121-1130 | one inner iteration annotates the nominal line if it matches |
| Matcher.MatchCavern | check_mappings.py:1115-1144 | the loop leaves the nominal objects as the specification says and returns the pairing and warnings |
| Matcher.MatchCavernLine | check_mappings.py:1116-1144 | one outer iteration is one step of the specification |
| Matcher.FindLast | check_mappings.py:1165-1169 | the loop counts the matches and returns the last |
| Matcher.Rematch | check_fix_mapping_ppp.py:614-636 | the re-match pairs each moved line under `equal_pepi_ppp` and changes no nominal line |
| Matcher.RematchPairs | check_mappings.py:1156-1181 | each moved line is paired with the last nominal line equal under `equal_pepi_ppp`, or the placeholder exactly when none is |
| Matcher.UnfoundEmpty | check_fix_mapping_ppp.py:502-518 | nothing is reported exactly when every nominal line has a match |
| Matcher.AnyMatch | check_mappings.py:1049-1051 | the inner loop finds whether some cavern line matches |
| Matcher.CavernTypoCheck | check_mappings.py:1041-1057 | true exactly when every nominal line has a cavern line equal under `equal_minus_ppp`; the reported lines are the others |
| Matcher.TypoCheckedAllAnnotated | check_fix_mapping_ppp.py:576-590 | after a clean typo check every nominal line ends annotated by some matching cavern line |
| Matcher.CorrectedOfMatch | check_mappings.py:1144 | each corrected entry is the placeholder for an unmatched cavern line, or the final state of its last matching nominal line |
| Swap.MovedKeeps | check_mappings.py:695-700 | a moved line differs from its source only in PPP position |
| Swap.TargetScope | check_mappings.py:691-694 | the newer script moves only C/bot/mag hybrid lines and keeps others at the old position; the older one moves all |
| Swap.RowMovesSpec | check_mappings.py:690-700 | one row's output is one moved line per cavern line at its old position, in cavern order |
| Swap.MatchingSpec | check_mappings.py:690-694 | the selected lines are exactly those at the row's old position, each once and in order |
| Swap.SwappedAppend | check_fix_mapping_ppp.py:419-433 | swaps do not cascade: two tables in sequence give the two results side by side |
| Swap.SwappedFrom | check_fix_mapping_ppp.py:419-433 | every output line is a moved copy of a cavern line at some row's old position, so lines at unlisted positions are absent |
| Swap.SwapPositions | check_mappings.py:688-704 | the nested loops compute the swap |
| Swap.SwapRow1 | check_mappings.py:690-700 | the inner loop computes one row's moved lines |
| Sorting.SortBy | check_mappings.py:940 | `sorted` returns a permutation of its input |
| Sorting.SortChain | check_mappings.py:940-946 | sorting an input already ordered by a relation gives "by key, then by that relation", which is how successive sorts combine |
| Sorting.SortOrdered | check_mappings.py:940 | the result is ordered by the key |
| Sorting.SortStable | check_mappings.py:940 | elements that share the sort key, or any group of them, keep their input order |
| Sorting.BeforeTotal | check_mappings.py:940 | the key order is total |
| Sorting.BeforeAntisym | check_mappings.py:940 | the key order is antisymmetric |
| Sorting.BeforeTrans | check_mappings.py:940 | the key order is transitive |
| Report.Head | check_mappings.py:1029 | `s[:1]` has at most one character and is a prefix of s |
| Report.PopulationSpec | check_mappings.py:963-969 | the population is at most the row count, and zero exactly when no non-splice row sits at the position |
| Report.CountPositronic | check_mappings.py:963-969 | the loop computes the population |
| Report.AddPopCol | check_fix_mapping_ppp.py:494-498 | the row count and all existing cells are kept and one cell is appended |
| Report.PopColCounts | check_fix_mapping_ppp.py:494-498 | the new cell is the row's position population, at least 1 for a non-splice row, and equal for rows at the same position |
| Report.Blank | check_mappings.py:947-948 | the blank row is full width and all " " |
| Report.ChangesSpec | check_mappings.py:949-955 | the change indices are increasing, each a position change, and every change is listed |
| Report.FindChanges | check_mappings.py:949-955 | the scan collects the change indices |
| Report.InsertBlanks | check_mappings.py:956-959 | inserting at index plus running offset puts one blank before each change |
| Report.SepUnblank | check_mappings.py:956-959 | removing the blank rows from the output gives back the sorted rows |
| Report.SortBySurfPppLayer | check_mappings.py:936-961 | the method computes the specified result |
| Report.SurfPppLayerSpec | check_fix_mapping_ppp.py:459-484 | defined exactly for a non-empty table with numbered positions and non-empty layers; a permutation ordered by layer initial, position number and pins plus blanks only |
| Cctb.CctbRow | check_mappings.py:986-989 | a row has 16 cells starting with the position and holding the flex |
| Report.SurfOrderStable | check_fix_mapping_ppp.py:463-468 | rows tied on layer initial, position number and pins keep their input order |
| Cctb.CctbSheetSpec | check_mappings.py:991-1002 | the sheet is the header then a permutation of the rows ordered by backplane (descending), flex initial, position and pin |
| Cctb.CctbOrderStable | check_mappings.py:991-998 | rows tied on backplane, flex initial, position and pin keep their line order |
| Cctb.CctbKeys | check_mappings.py:991-996 | the sort keys can be read exactly when every line has a numbered position and a flex |
| Cctb.CctbTableSpec | check_mappings.py:980-1003 | the table exists exactly when every line of the PEPI is ready, and then has one row per line at that (y, z) |
| Cctb.PickPepi | check_mappings.py:982-984 | the first loop keeps exactly the lines at the PEPI's (y, z), in order |
| Cctb.CctbRowsOf | check_mappings.py:986-989 | the second loop builds one row per line, or fails |
| Cctb.OrganizeCctbTable | check_mappings.py:980-1003 | the method computes the specified table |
| Cctb.SenseRow | check_mappings.py:1012-1020 | a sense row has 12 cells and the LVR number in column 5 |
| Cctb.SenseSplitSpec | check_mappings.py:1012-1022 | every sense line lands on exactly one sheet: magnet for LVR at most 36, IP otherwise |
| Cctb.SenseSheetSpec | check_mappings.py:1023-1036 | a sheet is its header then a permutation ordered by coupler letter, number and pair |
| Cctb.SenseOrderStable | check_mappings.py:1025-1030 | rows tied on coupler letter, number and pair keep their line order |
| Cctb.SplitSense | check_mappings.py:1012-1022 | the loop computes the split |
| Cctb.OrganizeCctbSenseTable | check_mappings.py:1008-1037 | the method computes both sheets |
| LoadCheck.ErrorRow | check_mappings.py:1356-1359 | an error row has 7 cells holding the LVR, the cavern load and the schematic load |
| LoadCheck.CheckPieceSpec | check_mappings.py:1342-1359 | one label piece fails exactly when it has no " &#124; " and otherwise adds a row exactly on a load mismatch |
| LoadCheck.CheckPiecesSpec | check_mappings.py:1341-1359 | the per-line loop agrees with the stateless comparison against the merged map |
| LoadCheck.CheckLinesSpec | check_mappings.py:1339-1359 | the outer loop agrees with the stateless comparison, keeping the known map consistent |
| LoadCheck.LvrLoadCheckStateless | check_mappings.py:1325-1359 | the error table is the header then exactly the mismatches against the merged schematic map |
| LoadCheck.PieceErrorsReal | check_mappings.py:1342-1359 | every error row of a line records a real mismatch against the expected load |
| LoadCheck.MismatchesReal | check_mappings.py:1339-1359 | every error row records a real mismatch against the expected load |
| LoadCheck.MergedLoads | check_mappings.py:1329-1348 | the magnet schematic overrides the IP one, which overrides "Depopulated in LV Schem.!" |
| LoadCheck.MergeLoads | check_mappings.py:1329-1335 | the two loops merge the maps with the magnet entries winning |
| LoadCheck.CheckLinePieces | check_mappings.py:1341-1359 | the inner loop computes one line's check |
| LoadCheck.CheckLvrLoads | check_mappings.py:1325-1359 | the method computes the specified error table |

## Left out

- Spreadsheet ingestion is not modelled (`parseSheet`, `parseDCBs`, `parseHybrids`, `parse_surface`, the reading part of `parse_cavern`, `read_excel`). Nor is `parseXls.py`. Parsed lines and layout rows are inputs.
- `parse_netlist`, `parse_tbb` and `parse_check_petr_lvr` read text files. Their maps (power map, tBB map, schematic loads) are given as parameters.
- The argparse options and the `parse_func` dispatch table are left out. So are file output (`open`, `csv.writer`) and printing: warnings are returned lists, tables are returned rows.
- `one_dec_str` is float rounding. It is the parameter `norm` of `set_length` and of everything that stores lengths.
- `__hash__` is left out, and so is the collapse of dictionary keys that compare equal. The pairing dictionaries are sequences aligned with the cavern lines, which keep every cavern line.
- The stereo/straight flip comparison in the matcher is switched off by a constant in both scripts. The flip itself is modelled (`Lines.FlipRec`), but its use in the matcher is not.
- `senseline.get_msa` returns nothing. The printing inside `get_flex`/`get_load` and the `cable_test`/PETR comparison stubs are not modelled.
- The LVR-channel formula at check_mappings.py:360 is vectorised float arithmetic and is not modelled.
- NaN cells of the swap sheet are not modelled. Its positions are integers.
- After a Python exception the model returns failure; it does not describe the partially updated lines left behind.
- Text.ParseInt: accepts an optional "-" or "+" sign and ASCII digits only. It does not accept the surrounding whitespace, digit underscores or non-ASCII digits that Python's `int()` accepts.
- Text.ParseFloatTrunc: accepts only `[sign] digits [. digits]` and `[sign] . digits`. It fails on forms Python's `float()` accepts: surrounding whitespace (" 3", "3 "), exponents ("1e1"), digit underscores, "inf" and "nan". A channel cell written in one of these forms makes `Lines.Channels`, `Lines.Line.GetLvrPins` and `Splice.UnspliceCopies` fail where the script succeeds.
- Splitters.InSpltrLab, Splitters.OutSpltrLab: for an unknown splitter type the Python returns `None`. The model gives the empty string, which is what the CSV writer puts in the cell.
- Report.AddPopCol: the population is appended as its decimal string `IntToString(n)`, where the script appends an `int`. The CSV writer writes both the same way.
- Text.Lower: only ASCII letters are lower-cased.
- Report.SortBySurfPppLayer: the column indices are required to exist in every row (`Wide`). Python raises `IndexError` there.
- Report.AddPopCol: the same column-index requirement.
- Report.CountPositronic: the same column-index requirement.
- Swap.SwapPositions: the swap builds new values rather than new objects. Python also builds new line objects, so no aliasing is lost.
- Sorting.SortBy: the temporary reference column the scripts append and drop is modelled as a key function.
