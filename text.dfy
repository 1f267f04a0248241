/** The handful of Python string and number operations the cable-map scripts
    rely on, written out so that their edge cases are explicit:
    `str(int)`, `int(s)`, `int(float(s))`, `s.split(sep)`, `sep.join(parts)`,
    `s.replace(pat, with)`, `sub in s`, ASCII `lower()` and slicing. */
module Text {

  datatype Option<T> = None | Some(value: T)

  predicate IsDigit(c: char) { '0' <= c <= '9' }

  predicate AllDigits(s: string) { forall i :: 0 <= i < |s| ==> IsDigit(s[i]) }

  function DigitChar(d: nat): (c: char)
    requires d < 10
    ensures IsDigit(c) && c as int - '0' as int == d
  {
    ('0' as int + d) as char
  }

  /** Value of a string of decimal digits (leading zeros allowed, "" is 0). */
  function DigitsValue(s: string): nat
    requires AllDigits(s)
  {
    if s == [] then 0 else DigitsValue(s[..|s| - 1]) * 10 + (s[|s| - 1] as int - '0' as int)
  }

  /** Python `str(n)` for a non-negative integer. */
  function NatToString(n: nat): (s: string)
    ensures |s| > 0 && AllDigits(s)
    ensures DigitsValue(s) == n
    ensures n >= 10 ==> s[0] != '0'
  {
    if n < 10 then [DigitChar(n)]
    else
      var s := NatToString(n / 10) + [DigitChar(n % 10)];
      assert s[..|s| - 1] == NatToString(n / 10);
      s
  }

  /** Python `str(n)` for any integer. */
  function IntToString(n: int): string
  {
    if n < 0 then "-" + NatToString(-n) else NatToString(n)
  }

  /** Decimal renderings contain only digits and a minus sign. */
  lemma IntToStringChars(n: int, c: char)
    requires !IsDigit(c) && c != '-'
    ensures c !in IntToString(n)
  {
    if n < 0 {
      assert IntToString(n) == ['-'] + NatToString(-n);
    }
  }

  /** Python `int(s)` on an optionally signed run of decimal digits; anything
      else raises `ValueError`, modelled as `None`. */
  function ParseInt(s: string): Option<int>
  {
    if |s| > 0 && (s[0] == '-' || s[0] == '+') then
      if |s| > 1 && AllDigits(s[1..]) then
        Some(if s[0] == '-' then -(DigitsValue(s[1..]) as int) else DigitsValue(s[1..]))
      else None
    else if |s| > 0 && AllDigits(s) then Some(DigitsValue(s))
    else None
  }

  lemma ParseIntOfIntToString(n: int)
    ensures ParseInt(IntToString(n)) == Some(n)
  {
    if n < 0 {
      assert IntToString(n)[1..] == NatToString(-n);
    }
  }

  /** Python `int(float(s))` on `[sign] digits [. digits]` or `[sign] . digits`:
      the float is truncated toward zero, so only the integer part counts. */
  function ParseFloatTrunc(s: string): Option<int>
  {
    var neg := |s| > 0 && s[0] == '-';
    var body := if |s| > 0 && (s[0] == '-' || s[0] == '+') then s[1..] else s;
    match Find(body, ".")
    case None =>
      if |body| > 0 && AllDigits(body) then
        Some(if neg then -(DigitsValue(body) as int) else DigitsValue(body))
      else None
    case Some(k) =>
      var whole := body[..k];
      var frac := body[k + 1..];
      if AllDigits(whole) && AllDigits(frac) && (|whole| > 0 || |frac| > 0) then
        Some(if neg then -(DigitsValue(whole) as int) else DigitsValue(whole))
      else None
  }

  lemma NoDotInDigits(s: string)
    requires AllDigits(s)
    ensures Find(s, ".") == None
  {
    forall j | 0 <= j <= |s|
      ensures !("." <= s[j..])
    {
      if j < |s| {
        assert IsDigit(s[j]);
      }
    }
  }

  lemma ParseFloatTruncOfIntToString(n: int)
    ensures ParseFloatTrunc(IntToString(n)) == Some(n)
  {
    var s := IntToString(n);
    if n < 0 {
      assert s[1..] == NatToString(-n);
      NoDotInDigits(s[1..]);
    } else {
      NoDotInDigits(s);
    }
  }

  /** Index of the first occurrence of `pat` in `s`. */
  function Find(s: string, pat: string): (r: Option<nat>)
    ensures r.Some? ==> r.value + |pat| <= |s| && pat <= s[r.value..]
    ensures r.Some? ==> forall j :: 0 <= j < r.value ==> !(pat <= s[j..])
    ensures r.None? ==> forall j :: 0 <= j <= |s| ==> !(pat <= s[j..])
    decreases |s|
  {
    if pat <= s then Some(0)
    else if s == [] then None
    else
      var r := Find(s[1..], pat);
      assert forall j :: 1 <= j <= |s| ==> s[j..] == s[1..][j - 1..];
      match r
      case None => None
      case Some(k) => Some(k + 1)
  }

  /** Python `pat in s`. */
  predicate Contains(s: string, pat: string) { Find(s, pat).Some? }

  /** Python `s.split(sep)` for a non-empty separator: the pieces between
      non-overlapping occurrences of `sep`, scanning left to right. */
  function Split(s: string, sep: string): (parts: seq<string>)
    requires |sep| > 0
    ensures |parts| > 0
    decreases |s|
  {
    match Find(s, sep)
    case None => [s]
    case Some(k) => [s[..k]] + Split(s[k + |sep|..], sep)
  }

  /** Python `sep.join(parts)`. */
  function Join(parts: seq<string>, sep: string): string
  {
    if |parts| == 0 then ""
    else if |parts| == 1 then parts[0]
    else parts[0] + sep + Join(parts[1..], sep)
  }

  lemma {:induction false} JoinSplit(s: string, sep: string)
    requires |sep| > 0
    ensures Join(Split(s, sep), sep) == s
    decreases |s|
  {
    match Find(s, sep)
    case None =>
    case Some(k) =>
      var rest := s[k + |sep|..];
      JoinSplit(rest, sep);
      assert s[k..k + |sep|] == sep;
      assert s == s[..k] + sep + rest;
  }

  /** `sep[p]` is a marker: the first occurrence of that character in `sep`. */
  predicate Marker(sep: string, p: nat)
  {
    p < |sep| && sep[p] !in sep[..p]
  }

  /** A piece that does not contain the separator's marker character cannot
      hide an occurrence of the separator, even one straddling its end. */
  lemma FindAfterPiece(a: string, sep: string, b: string, p: nat)
    requires Marker(sep, p) && sep[p] !in a
    ensures Find(a + sep + b, sep) == Some(|a|)
  {
    var s := a + sep + b;
    assert s[|a|..] == sep + b;
    forall j | 0 <= j < |a|
      ensures !(sep <= s[j..])
    {
      if j + p < |a| {
        assert s[j + p] == a[j + p];
      } else {
        assert s[j + p] == sep[j + p - |a|] == sep[..p][j + p - |a|];
      }
      assert s[j..][p] != sep[p];
    }
  }

  lemma FindInPiece(a: string, sep: string, p: nat)
    requires Marker(sep, p) && sep[p] !in a
    ensures Find(a, sep) == None
  {
    forall j | 0 <= j <= |a|
      ensures !(sep <= a[j..])
    {
      if j + |sep| <= |a| {
        assert a[j..][p] == a[j + p];
      }
    }
  }

  /** Splitting a joined list gives the list back when no piece contains the
      separator's marker character. */
  lemma {:induction false} SplitJoin(parts: seq<string>, sep: string, p: nat)
    requires Marker(sep, p) && |parts| > 0
    requires forall i :: 0 <= i < |parts| ==> sep[p] !in parts[i]
    ensures Split(Join(parts, sep), sep) == parts
  {
    if |parts| == 1 {
      FindInPiece(parts[0], sep, p);
    } else {
      var rest := Join(parts[1..], sep);
      var s := parts[0] + sep + rest;
      assert Join(parts, sep) == s;
      FindAfterPiece(parts[0], sep, rest, p);
      assert s[..|parts[0]|] == parts[0];
      assert s[|parts[0]| + |sep|..] == rest;
      assert Split(s, sep) == [parts[0]] + Split(rest, sep);
      assert forall i :: 0 <= i < |parts[1..]| ==> parts[1..][i] == parts[i + 1];
      SplitJoin(parts[1..], sep, p);
      assert parts == [parts[0]] + parts[1..];
    }
  }

  /** Python `s.replace(pat, with)`: every non-overlapping occurrence of `pat`,
      found left to right, is replaced; this is splitting on `pat` and joining
      with `with`. */
  function Replace(s: string, pat: string, with: string): string
    requires |pat| > 0
  {
    Join(Split(s, pat), with)
  }

  /** No piece contains `c`. */
  predicate NoPieceHas(parts: seq<string>, c: char)
  {
    forall i :: 0 <= i < |parts| ==> c !in parts[i]
  }

  lemma NoPieceHasCons(head: string, tail: seq<string>, c: char)
    requires c !in head && NoPieceHas(tail, c)
    ensures NoPieceHas([head] + tail, c)
  {
    forall i | 0 < i < |[head] + tail|
      ensures c !in ([head] + tail)[i]
    {
      assert ([head] + tail)[i] == tail[i - 1];
    }
  }

  /** One step of `Split`: whether `sep` occurs, and then the first piece
      ends at `k` and the rest starts after that occurrence. */
  lemma SplitStep(s: string, sep: string) returns (found: bool, k: nat)
    requires |sep| > 0
    ensures !found ==> Split(s, sep) == [s]
    ensures found ==> k + |sep| <= |s| && Split(s, sep) == [s[..k]] + Split(s[k + |sep|..], sep)
  {
    found := Find(s, sep).Some?;
    k := if found then Find(s, sep).value else 0;
  }

  /** Every character of a piece of `s.split(sep)` is a character of `s`. */
  lemma {:induction false} SplitPiecesIn(s: string, sep: string, c: char)
    requires |sep| > 0 && c !in s
    ensures NoPieceHas(Split(s, sep), c)
    decreases |s|
  {
    var found, k := SplitStep(s, sep);
    if found {
      SubseqFree(s, c, 0, k);
      SubseqFree(s, c, k + |sep|, |s|);
      SplitPiecesIn(s[k + |sep|..], sep, c);
      NoPieceHasCons(s[..k], Split(s[k + |sep|..], sep), c);
    }
  }

  /** A slice of a string without `c` has no `c`. */
  lemma SubseqFree(s: string, c: char, a: nat, b: nat)
    requires a <= b <= |s| && c !in s
    ensures c !in s[a..b]
  {
  }

  /** The replacement loses nothing: when the marker character of `with`
      does not occur in `s`, replacing `with` by `pat` again gives `s` back. */
  lemma ReplaceUndone(s: string, pat: string, with: string, p: nat)
    requires |pat| > 0 && Marker(with, p) && with[p] !in s
    ensures Replace(Replace(s, pat, with), with, pat) == s
  {
    SplitPiecesIn(s, pat, with[p]);
    assert NoPieceHas(Split(s, pat), with[p]);
    SplitJoin(Split(s, pat), with, p);
    JoinSplit(s, pat);
  }

  /** ASCII part of Python `str.lower()`. */
  function LowerChar(c: char): char
  {
    if 'A' <= c <= 'Z' then (c as int + 32) as char else c
  }

  function Lower(s: string): (r: string)
    ensures |r| == |s| && forall i :: 0 <= i < |s| ==> r[i] == LowerChar(s[i])
  {
    seq(|s|, i requires 0 <= i < |s| => LowerChar(s[i]))
  }

  /** Python `s[k:]` for `k >= 0`. */
  function DropFirst(s: string, k: nat): string
  {
    if k <= |s| then s[k..] else ""
  }

  /** Python `s[:-k]` for `k > 0`. */
  function DropLast(s: string, k: nat): string
  {
    if k <= |s| then s[..|s| - k] else ""
  }

  /** Python `s[-k:]` for `k > 0`. */
  function TakeLast(s: string, k: nat): string
  {
    if k <= |s| then s[|s| - k..] else s
  }

  /** Python `xs[i]`, where a negative index counts from the end and an index
      outside the list raises `IndexError` (modelled as `None`). */
  function PyIndex<T>(xs: seq<T>, i: int): Option<T>
  {
    if 0 <= i < |xs| then Some(xs[i])
    else if -|xs| <= i < 0 then Some(xs[|xs| + i])
    else None
  }

  // ---------------------------------------------------------------------
  // Prefixes of sequences, stated once for any element type so that the
  // equalities are never re-proved on sequences of records

  lemma TakeSnoc<T>(s: seq<T>, i: nat)
    requires i < |s|
    ensures s[..i + 1] == s[..i] + [s[i]]
    ensures s[..i + 1][..i] == s[..i]
  {
  }

  lemma TakeAll<T>(s: seq<T>)
    ensures s[..|s|] == s
  {
  }

  lemma SnocPrefix<T>(s: seq<T>, x: T)
    ensures (s + [x])[..|s|] == s
  {
  }

  lemma AppendAssoc<T>(a: seq<T>, b: seq<T>, c: seq<T>)
    ensures a + (b + c) == (a + b) + c
  {
  }

  lemma AppendNil<T>(a: seq<T>)
    ensures a + [] == a
  {
  }

  lemma SnocTake<T>(s: seq<T>)
    requires |s| > 0
    ensures s == s[..|s| - 1] + [s[|s| - 1]]
  {
  }

  lemma SuffixSplit<T>(s: seq<T>, a: nat, b: nat)
    requires a < b <= |s|
    ensures s[a..] == [s[a]] + s[a + 1..b] + s[b..]
  {
  }

  lemma Regroup<T>(a: seq<T>, b: seq<T>, c: seq<T>, d: seq<T>, e: seq<T>)
    ensures a + b + (c + d + e) == a + b + c + d + e
  {
  }

  lemma SplitAt<T>(a: seq<T>, b: seq<T>)
    ensures (a + b)[..|a|] == a && (a + b)[|a|..] == b
  {
  }
}
