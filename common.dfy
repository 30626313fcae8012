/** String helpers of the scene loader (src/common.cpp): splitting a string into
    tokens, lower-casing, and the conversions of attribute text into booleans,
    integers, floats and small float vectors.

    `tokenize` is modelled by the method `Tokenize`, which follows the source's
    `find_first_of` loop, and is proved equal to `Tokens`, a reference definition
    built from `Segments` (the pieces between delimiter characters). The
    conversions follow the C library routines they call (`strtol`, `strtoul`,
    `strtof`), including the end-pointer check.
*/
module Common {
  import opened Wrappers

  datatype Vec2 = Vec2(x: real, y: real)
  datatype Vec3 = Vec3(x: real, y: real, z: real)
  datatype Vec4 = Vec4(x: real, y: real, z: real, w: real)

  /** The delimiter set `tokenize` uses when none is given (src/common.hpp). */
  const DefaultDelimiters: string := ", "

  // ---------------------------------------------------------------------------
  // tokenize
  // ---------------------------------------------------------------------------

  /** `s.find_first_of(delim, from)`: the first index at or after `from` holding a
      character of `delim`; `None` plays `std::string::npos`. */
  function FindFirstOf(s: string, delim: string, from: nat): (r: Option<nat>)
    requires from <= |s|
    ensures r.Some? ==> from <= r.value < |s|
    decreases |s| - from
  {
    if from == |s| then None
    else if s[from] in delim then Some(from)
    else FindFirstOf(s, delim, from + 1)
  }

  /** Reference definition: the pieces of `s` between delimiter characters. Every
      character of `delim` closes one piece and opens the next, so pieces may be
      empty and there is always at least one. */
  function Segments(s: string, delim: string): (r: seq<string>)
    ensures |r| >= 1
  {
    if s == [] then [[]]
    else
      var rest := Segments(s[1..], delim);
      if s[0] in delim then [[]] + rest
      else [[s[0]] + rest[0]] + rest[1..]
  }

  /** Removes every empty piece except the last one. */
  function DropInnerEmpty(ts: seq<string>): (r: seq<string>)
    requires |ts| >= 1
    ensures |r| >= 1
  {
    if |ts| == 1 then ts
    else (if |ts[0]| == 0 then [] else [ts[0]]) + DropInnerEmpty(ts[1..])
  }

  /** What `tokenize(s, delim, includeEmpty)` returns. */
  function Tokens(s: string, delim: string, includeEmpty: bool): seq<string> {
    if includeEmpty then Segments(s, delim) else DropInnerEmpty(Segments(s, delim))
  }

  /** The pieces of a suffix of `s`: the piece up to the next delimiter, then the pieces after it. */
  lemma {:induction false} SegmentsAt(s: string, delim: string, start: nat)
    requires start <= |s|
    ensures FindFirstOf(s, delim, start).None? ==> Segments(s[start..], delim) == [s[start..]]
    ensures FindFirstOf(s, delim, start).Some? ==>
      var p := FindFirstOf(s, delim, start).value;
      Segments(s[start..], delim) == [s[start..p]] + Segments(s[p + 1..], delim)
    decreases |s| - start
  {
    if start == |s| {
      assert s[start..] == [];
    } else {
      assert s[start..][1..] == s[start + 1..];
      if s[start] in delim {
        assert s[start..start] == [];
      } else {
        SegmentsAt(s, delim, start + 1);
        match FindFirstOf(s, delim, start + 1)
        case None =>
          assert [s[start]] + s[start + 1..] == s[start..];
        case Some(p) =>
          assert [s[start]] + s[start + 1..p] == s[start..p];
      }
    }
  }

  lemma SegmentsAtDelimiter(s: string, delim: string, start: nat, p: nat)
    requires start <= |s| && FindFirstOf(s, delim, start) == Some(p)
    ensures Segments(s[start..], delim) == [s[start..p]] + Segments(s[p + 1..], delim)
  {
    SegmentsAt(s, delim, start);
  }

  lemma SegmentsAtEnd(s: string, delim: string, start: nat)
    requires start <= |s| && FindFirstOf(s, delim, start).None?
    ensures Segments(s[start..], delim) == [s[start..]]
  {
    SegmentsAt(s, delim, start);
  }

  lemma DropInnerEmptyCons(t: string, ts: seq<string>)
    requires |ts| >= 1
    ensures DropInnerEmpty([t] + ts) == (if |t| != 0 then [t] else []) + DropInnerEmpty(ts)
  {
    assert ([t] + ts)[1..] == ts;
  }

  lemma ConcatAssociates(a: seq<string>, b: seq<string>, c: seq<string>)
    ensures (a + b) + c == a + (b + c)
  {
  }

  /** What the loop of `Tokenize` still adds to `tokens` from the state `lastPos`. */
  function Finish(s: string, delim: string, includeEmpty: bool, tokens: seq<string>, lastPos: Option<nat>): seq<string>
    requires lastPos.Some? ==> lastPos.value <= |s|
    decreases if lastPos.Some? then |s| + 1 - lastPos.value else 0
  {
    match lastPos
    case None => tokens
    case Some(start) =>
      match FindFirstOf(s, delim, start)
      case None => tokens + [s[start..]]
      case Some(p) =>
        Finish(s, delim, includeEmpty, if p != start || includeEmpty then tokens + [s[start..p]] else tokens, Some(p + 1))
  }

  /** With empty pieces kept, the loop appends the pieces of the rest of the string. */
  lemma {:induction false} FinishKeepEmpty(s: string, delim: string, acc: seq<string>, start: nat)
    requires start <= |s|
    ensures Finish(s, delim, true, acc, Some(start)) == acc + Segments(s[start..], delim)
    decreases |s| - start
  {
    var found := FindFirstOf(s, delim, start);
    if found.Some? {
      var p := found.value;
      var piece := s[start..p];
      var rest := Segments(s[p + 1..], delim);
      SegmentsAtDelimiter(s, delim, start, p);
      FinishStep(s, delim, true, acc, start, p);
      FinishKeepEmpty(s, delim, acc + [piece], p + 1);
      ConcatAssociates(acc, [piece], rest);
    } else {
      SegmentsAtEnd(s, delim, start);
    }
  }

  /** With empty pieces dropped, the loop appends the pieces of the rest of the string
      without the empty ones before the last. */
  lemma {:induction false} FinishDropEmpty(s: string, delim: string, acc: seq<string>, start: nat)
    requires start <= |s|
    ensures Finish(s, delim, false, acc, Some(start)) == acc + DropInnerEmpty(Segments(s[start..], delim))
    decreases |s| - start
  {
    var found := FindFirstOf(s, delim, start);
    if found.Some? {
      var p := found.value;
      var piece := s[start..p];
      var rest := Segments(s[p + 1..], delim);
      SegmentsAtDelimiter(s, delim, start, p);
      FinishStep(s, delim, false, acc, start, p);
      DropInnerEmptyCons(piece, rest);
      if p != start {
        assert |piece| != 0;
        FinishDropEmpty(s, delim, acc + [piece], p + 1);
        ConcatAssociates(acc, [piece], DropInnerEmpty(rest));
        calc {
          Finish(s, delim, false, acc, Some(start));
          Finish(s, delim, false, acc + [piece], Some(p + 1));
          (acc + [piece]) + DropInnerEmpty(rest);
          acc + ([piece] + DropInnerEmpty(rest));
          acc + DropInnerEmpty([piece] + rest);
        }
      } else {
        assert |piece| == 0;
        FinishDropEmpty(s, delim, acc, p + 1);
        assert [] + DropInnerEmpty(rest) == DropInnerEmpty(rest);
        calc {
          Finish(s, delim, false, acc, Some(start));
          Finish(s, delim, false, acc, Some(p + 1));
          acc + DropInnerEmpty(rest);
          acc + ([] + DropInnerEmpty(rest));
          acc + DropInnerEmpty([piece] + rest);
        }
      }
    } else {
      SegmentsAtEnd(s, delim, start);
    }
  }

  /** One unfolding of `Finish` at a delimiter. */
  lemma FinishStep(s: string, delim: string, includeEmpty: bool, acc: seq<string>, start: nat, p: nat)
    requires start <= |s| && FindFirstOf(s, delim, start) == Some(p)
    ensures Finish(s, delim, includeEmpty, acc, Some(start))
      == Finish(s, delim, includeEmpty, if p != start || includeEmpty then acc + [s[start..p]] else acc, Some(p + 1))
  {
  }

  /** `tokenize`: walks the string with `find_first_of`, pushing the piece before each
      delimiter (unless it is empty and `includeEmpty` is false) and, at the end,
      the piece after the last delimiter, even when that one is empty. */
  method Tokenize(s: string, delim: string, includeEmpty: bool) returns (tokens: seq<string>)
    ensures tokens == Tokens(s, delim, includeEmpty)
    ensures |tokens| >= 1
  {
    var lastPos: Option<nat> := Some(0);
    var pos := FindFirstOf(s, delim, 0);
    tokens := [];
    while lastPos.Some?
      invariant lastPos.Some? ==> lastPos.value <= |s| && pos == FindFirstOf(s, delim, lastPos.value)
      invariant Finish(s, delim, includeEmpty, tokens, lastPos) == Finish(s, delim, includeEmpty, [], Some(0))
      decreases if lastPos.Some? then |s| + 1 - lastPos.value else 0
    {
      var start := lastPos.value;
      if pos.Some? {
        var p := pos.value;
        if pos != lastPos || includeEmpty {
          tokens := tokens + [s[start..p]];
        }
        lastPos := Some(p + 1);
        pos := FindFirstOf(s, delim, p + 1);
      } else {
        // substr(lastPos, npos - lastPos) runs to the end of the string
        if pos != lastPos || includeEmpty {
          tokens := tokens + [s[start..]];
        }
        lastPos := None;
      }
    }
    FinishIsTokens(s, delim, includeEmpty);
  }

  lemma FinishIsTokens(s: string, delim: string, includeEmpty: bool)
    ensures Finish(s, delim, includeEmpty, [], Some(0)) == Tokens(s, delim, includeEmpty)
  {
    assert s[0..] == s;
    if includeEmpty {
      FinishKeepEmpty(s, delim, [], 0);
    } else {
      FinishDropEmpty(s, delim, [], 0);
    }
    assert [] + Tokens(s, delim, includeEmpty) == Tokens(s, delim, includeEmpty);
  }

  /** The delimiter characters of `s`, in order. */
  function DelimitersIn(s: string, delim: string): seq<char> {
    if s == [] then [] else (if s[0] in delim then [s[0]] else []) + DelimitersIn(s[1..], delim)
  }

  /** Puts a string back together from its pieces and the delimiters found between them. */
  function Interleave(pieces: seq<string>, separators: seq<char>): string
    requires |pieces| == |separators| + 1
  {
    if separators == [] then pieces[0]
    else pieces[0] + [separators[0]] + Interleave(pieces[1..], separators[1..])
  }

  lemma InterleaveConsChar(c: char, ts: seq<string>, ds: seq<char>)
    requires |ts| == |ds| + 1
    ensures Interleave([[c] + ts[0]] + ts[1..], ds) == [c] + Interleave(ts, ds)
  {
    var us := [[c] + ts[0]] + ts[1..];
    assert us[1..] == ts[1..];
    if ds != [] {
      assert us[0] + [ds[0]] + Interleave(us[1..], ds[1..])
          == [c] + (ts[0] + [ds[0]] + Interleave(ts[1..], ds[1..]));
    }
  }

  /** With `includeEmpty`, there is one token more than there are delimiter characters,
      and interleaving the tokens with those delimiters gives back the input. */
  lemma {:induction false} SegmentsRebuild(s: string, delim: string)
    ensures |Tokens(s, delim, true)| == |DelimitersIn(s, delim)| + 1
    ensures Interleave(Tokens(s, delim, true), DelimitersIn(s, delim)) == s
  {
    if s != [] {
      SegmentsRebuild(s[1..], delim);
      var rest := Segments(s[1..], delim);
      var ds := DelimitersIn(s[1..], delim);
      if s[0] in delim {
        var ts := [[]] + rest;
        assert ts[1..] == rest;
        assert Interleave(ts, [s[0]] + ds) == [] + [s[0]] + Interleave(rest, ds);
        assert [s[0]] + s[1..] == s;
      } else {
        assert Segments(s, delim) == [[s[0]] + rest[0]] + rest[1..];
        assert DelimitersIn(s, delim) == ds;
        InterleaveConsChar(s[0], rest, ds);
        assert [s[0]] + s[1..] == s;
      }
    }
  }

  /** No piece contains a delimiter character. */
  lemma {:induction false} SegmentsAvoidDelimiters(s: string, delim: string)
    ensures forall t, c :: t in Segments(s, delim) && c in t ==> c !in delim
  {
    if s != [] {
      SegmentsAvoidDelimiters(s[1..], delim);
      var rest := Segments(s[1..], delim);
      if s[0] !in delim {
        forall t, c | t in Segments(s, delim) && c in t ensures c !in delim {
          if t == [s[0]] + rest[0] {
            assert c == s[0] || c in rest[0];
          } else {
            assert t in rest;
          }
        }
      }
    }
  }

  /** No token contains any character of `delim`. */
  lemma TokensAvoidDelimiters(s: string, delim: string, includeEmpty: bool)
    ensures forall t, c :: t in Tokens(s, delim, includeEmpty) && c in t ==> c !in delim
  {
    SegmentsAvoidDelimiters(s, delim);
    DropInnerEmptyKeepsMembers(Segments(s, delim));
  }

  lemma {:induction false} DropInnerEmptyKeepsMembers(ts: seq<string>)
    requires |ts| >= 1
    ensures forall t :: t in DropInnerEmpty(ts) ==> t in ts
  {
    if |ts| > 1 {
      DropInnerEmptyKeepsMembers(ts[1..]);
    }
  }

  /** The non-empty strings of `ts`, in order. */
  function NonEmptyOnly(ts: seq<string>): seq<string> {
    if ts == [] then [] else (if |ts[0]| == 0 then [] else [ts[0]]) + NonEmptyOnly(ts[1..])
  }

  /** Without `includeEmpty`, only the empty pieces that a delimiter follows are
      dropped; the last piece is kept even when it is empty. */
  lemma {:induction false} DropInnerEmptyKeepsLast(ts: seq<string>)
    requires |ts| >= 1
    ensures DropInnerEmpty(ts) == NonEmptyOnly(ts[..|ts| - 1]) + [ts[|ts| - 1]]
  {
    if |ts| == 1 {
      assert ts[..0] == [];
    } else {
      var n := |ts|;
      var head: seq<string> := if |ts[0]| == 0 then [] else [ts[0]];
      DropInnerEmptyKeepsLast(ts[1..]);
      assert ts[1..][..n - 2] == ts[..n - 1][1..];
      assert ts[..n - 1][0] == ts[0];
      calc {
        DropInnerEmpty(ts);
        head + DropInnerEmpty(ts[1..]);
        head + (NonEmptyOnly(ts[..n - 1][1..]) + [ts[n - 1]]);
        (head + NonEmptyOnly(ts[..n - 1][1..])) + [ts[n - 1]];
        NonEmptyOnly(ts[..n - 1]) + [ts[n - 1]];
      }
    }
  }

  lemma TokensWithoutEmpty(s: string, delim: string)
    ensures var pieces := Segments(s, delim);
      Tokens(s, delim, false) == NonEmptyOnly(pieces[..|pieces| - 1]) + [pieces[|pieces| - 1]]
  {
    DropInnerEmptyKeepsLast(Segments(s, delim));
  }

  // ---------------------------------------------------------------------------
  // toLower, toBool
  // ---------------------------------------------------------------------------

  /** `::tolower` in the "C" locale. */
  function LowerChar(c: char): char {
    if 'A' <= c <= 'Z' then (c as int + 32) as char else c
  }

  function Lowered(s: string): string {
    seq(|s|, i requires 0 <= i < |s| => LowerChar(s[i]))
  }

  /** `toLower`: sizes a result buffer like the input and writes each character through `tolower`. */
  method ToLower(value: string) returns (result: string)
    ensures |result| == |value|
    ensures forall i :: 0 <= i < |value| ==> result[i] == LowerChar(value[i])
    ensures result == Lowered(value)
  {
    var buffer := new char[|value|];
    for i := 0 to |value|
      invariant forall k :: 0 <= k < i ==> buffer[k] == LowerChar(value[k])
    {
      buffer[i] := LowerChar(value[i]);
    }
    result := buffer[..];
  }

  /** `toBool`: "true" or "false" in any letter case; anything else throws. */
  function ToBool(str: string): (r: Result<bool>)
    ensures r.Ok? <==> Lowered(str) == "true" || Lowered(str) == "false"
    ensures r.Ok? ==> (r.value <==> Lowered(str) == "true")
    ensures r.Err? ==> r.error == Exception("Could not parse boolean value \"" + str + "\"")
  {
    var value := Lowered(str);
    if value == "false" then Ok(false)
    else if value == "true" then Ok(true)
    else Err(Exception("Could not parse boolean value \"" + str + "\""))
  }

  lemma ToBoolExamples()
    ensures ToBool("TRUE") == Ok(true)
    ensures ToBool("False") == Ok(false)
    ensures ToBool("yes").Err?
    ensures ToBool("").Err?
  {
    assert Lowered("TRUE") == "true";
    assert Lowered("False") == "false";
    assert Lowered("yes") == "yes";
  }

  // ---------------------------------------------------------------------------
  // toInt, toUInt: strtol / strtoul in base 10 and the end-pointer check
  // ---------------------------------------------------------------------------

  /** `isspace` in the "C" locale. */
  predicate IsSpace(c: char) {
    c == ' ' || c == '\t' || c == '\n' || c == '\r' || c as int == 11 || c as int == 12
  }

  predicate IsDigit(c: char) { '0' <= c <= '9' }

  predicate AllDigits(s: string) { forall k :: 0 <= k < |s| ==> IsDigit(s[k]) }

  function SkipSpaces(s: string, i: nat): (r: nat)
    requires i <= |s|
    ensures i <= r <= |s|
    decreases |s| - i
  {
    if i < |s| && IsSpace(s[i]) then SkipSpaces(s, i + 1) else i
  }

  /** The end of the run of digits starting at `i`. */
  function DigitsEnd(s: string, i: nat): (r: nat)
    requires i <= |s|
    ensures i <= r <= |s|
    ensures AllDigits(s[i..r])
    ensures r < |s| ==> !IsDigit(s[r])
    decreases |s| - i
  {
    if i < |s| && IsDigit(s[i]) then
      var r := DigitsEnd(s, i + 1);
      assert s[i..r] == [s[i]] + s[i + 1..r];
      r
    else i
  }

  function DigitsValue(ds: string): nat
    requires AllDigits(ds)
  {
    if ds == [] then 0 else DigitsValue(ds[..|ds| - 1]) * 10 + (ds[|ds| - 1] as int - '0' as int)
  }

  /** What `strtol`/`strtoul` read in base 10: white space, an optional sign and a run
      of digits. Without digits nothing is read and the end pointer is the start. */
  datatype NumberScan = NumberScan(negative: bool, magnitude: nat, end: nat)

  function ScanInteger(s: string): (r: NumberScan)
    ensures r.end <= |s|
  {
    var i := SkipSpaces(s, 0);
    var signed := i < |s| && (s[i] == '+' || s[i] == '-');
    var j := if signed then i + 1 else i;
    var k := DigitsEnd(s, j);
    if k == j then NumberScan(false, 0, 0)
    else NumberScan(signed && s[i] == '-', DigitsValue(s[j..k]), k)
  }

  /** `*end_ptr == '\0'`: the conversion stopped at the end of the C string (the end of
      `s`, or an embedded NUL). */
  predicate ConsumedAll(s: string, end: nat)
    requires end <= |s|
  {
    end == |s| || s[end] == '\0'
  }

  const LongMin: int := -0x8000_0000_0000_0000
  const LongMax: int := 0x7FFF_FFFF_FFFF_FFFF
  const ULongMax: int := 0xFFFF_FFFF_FFFF_FFFF
  const TwoTo32: int := 0x1_0000_0000
  const IntMin: int := -0x8000_0000
  const IntMax: int := 0x7FFF_FFFF

  /** The `(int)` cast: two's-complement truncation to 32 bits. */
  function WrapInt32(v: int): (r: int)
    ensures IntMin <= r <= IntMax
    ensures (r - v) % TwoTo32 == 0
    ensures IntMin <= v <= IntMax ==> r == v
  {
    var m := v % TwoTo32;
    if m > IntMax then m - TwoTo32 else m
  }

  /** `strtol`'s value for a 64-bit `long`: out-of-range values saturate. */
  function StrtolValue(scan: NumberScan): int {
    var v := if scan.negative then -(scan.magnitude as int) else scan.magnitude;
    if v > LongMax then LongMax else if v < LongMin then LongMin else v
  }

  /** `strtoul`'s value for a 64-bit `unsigned long`: a leading minus negates modulo
      2^64, and a magnitude out of range saturates. */
  function StrtoulValue(scan: NumberScan): nat {
    if scan.magnitude > ULongMax then ULongMax
    else if scan.negative then (ULongMax + 1 - scan.magnitude) % (ULongMax + 1)
    else scan.magnitude
  }

  function ToInt(str: string): (r: Result<int>)
    ensures r.Ok? <==> ConsumedAll(str, ScanInteger(str).end)
    ensures r.Ok? ==> IntMin <= r.value <= IntMax
  {
    var scan := ScanInteger(str);
    if !ConsumedAll(str, scan.end) then Err(Exception("Could not parse integer value \"" + str + "\""))
    else Ok(WrapInt32(StrtolValue(scan)))
  }

  function ToUInt(str: string): (r: Result<nat>)
    ensures r.Ok? <==> ConsumedAll(str, ScanInteger(str).end)
    ensures r.Ok? ==> r.value < TwoTo32
  {
    var scan := ScanInteger(str);
    if !ConsumedAll(str, scan.end) then Err(Exception("Could not parse integer value \"" + str + "\""))
    else Ok(StrtoulValue(scan) % TwoTo32)
  }

  /** Decimal notation of a natural number. */
  function Decimal(n: nat): (r: string)
    ensures |r| >= 1 && AllDigits(r)
  {
    if n < 10 then [('0' as int + n) as char]
    else Decimal(n / 10) + [('0' as int + n % 10) as char]
  }

  lemma {:induction false} DecimalValue(n: nat)
    ensures DigitsValue(Decimal(n)) == n
  {
    if n >= 10 {
      DecimalValue(n / 10);
      var s := Decimal(n);
      assert s[..|s| - 1] == Decimal(n / 10);
    }
  }

  lemma DigitsEndOfDigits(s: string, i: nat)
    requires i <= |s| && AllDigits(s[i..])
    ensures DigitsEnd(s, i) == |s|
    decreases |s| - i
  {
    if i < |s| {
      assert s[i..][0] == s[i];
      var tail := s[i + 1..];
      assert AllDigits(tail) by {
        forall k | 0 <= k < |tail| ensures IsDigit(tail[k]) {
          assert tail[k] == s[i..][k + 1];
        }
      }
      DigitsEndOfDigits(s, i + 1);
    }
  }

  /** Scanning the decimal notation of `n` reads all of it. */
  lemma ScanOfDecimal(n: nat)
    ensures ScanInteger(Decimal(n)) == NumberScan(false, n, |Decimal(n)|)
  {
    var s := Decimal(n);
    assert !IsSpace(s[0]) && s[0] != '+' && s[0] != '-';
    assert SkipSpaces(s, 0) == 0;
    assert s[0..] == s;
    DigitsEndOfDigits(s, 0);
    DecimalValue(n);
    assert s[0..|s|] == s;
  }

  /** Scanning a minus sign followed by the decimal notation of `n` reads all of it. */
  lemma ScanOfNegativeDecimal(n: nat)
    ensures ScanInteger("-" + Decimal(n)) == NumberScan(true, n, |Decimal(n)| + 1)
  {
    var d := Decimal(n);
    var s := "-" + d;
    assert !IsSpace(s[0]);
    assert SkipSpaces(s, 0) == 0;
    assert s[1..] == d;
    DigitsEndOfDigits(s, 1);
    DecimalValue(n);
    assert s[1..|s|] == d;
  }

  /** The signed decimal notation of an integer. */
  function SignedDecimal(v: int): string {
    if v < 0 then "-" + Decimal(-v) else Decimal(v)
  }

  /** Every 32-bit integer written in decimal reads back as itself. */
  lemma ToIntRoundTrip(v: int)
    requires IntMin <= v <= IntMax
    ensures ToInt(SignedDecimal(v)) == Ok(v)
  {
    var text := SignedDecimal(v);
    if v < 0 {
      ScanOfNegativeDecimal(-v);
      assert ScanInteger(text) == NumberScan(true, -v, |text|);
    } else {
      ScanOfDecimal(v);
      assert ScanInteger(text) == NumberScan(false, v, |text|);
    }
    assert StrtolValue(ScanInteger(text)) == v;
  }

  /** A value past INT_MAX wraps around through the `(int)` cast. */
  lemma ToIntWraps(n: nat)
    requires IntMax < n < TwoTo32
    ensures ToInt(Decimal(n)) == Ok(n - TwoTo32)
  {
    ScanOfDecimal(n);
    assert StrtolValue(ScanInteger(Decimal(n))) == n;
    assert n % TwoTo32 == n;
  }

  lemma ToUIntRoundTrip(n: nat)
    requires n < TwoTo32
    ensures ToUInt(Decimal(n)) == Ok(n)
  {
    ScanOfDecimal(n);
    assert StrtoulValue(ScanInteger(Decimal(n))) == n;
    assert n % TwoTo32 == n;
  }

  /** `strtoul` accepts a minus sign and negates modulo 2^64, so "-n" reads as 2^32 - n. */
  lemma ToUIntNegative(n: nat)
    requires 0 < n < TwoTo32
    ensures ToUInt("-" + Decimal(n)) == Ok(TwoTo32 - n)
  {
    ScanOfNegativeDecimal(n);
    var v := ULongMax + 1 - n;
    assert v % (ULongMax + 1) == v;
    assert StrtoulValue(ScanInteger("-" + Decimal(n))) == v;
    assert v == TwoTo32 * 0xFFFF_FFFF + (TwoTo32 - n);
    assert v % TwoTo32 == TwoTo32 - n;
  }

  /** A character left after the number (other than a NUL) makes the conversion throw. */
  lemma ToIntRejectsTrailing(n: nat, c: char)
    requires !IsDigit(c) && c != '\0'
    ensures ToInt(Decimal(n) + [c]).Err?
    ensures ToUInt(Decimal(n) + [c]).Err?
  {
    var d := Decimal(n);
    var s := d + [c];
    assert !IsSpace(s[0]);
    assert s[..|d|] == d;
    assert AllDigits(s[0..|d|]);
    DigitsEndOfDigits(d, 0);
    DigitsEndPrefix(s, d);
  }

  lemma DigitsEndPrefix(s: string, d: string)
    requires |d| < |s| && s[..|d|] == d && AllDigits(d) && !IsDigit(s[|d|])
    ensures DigitsEnd(s, 0) == |d|
  {
    var i := 0;
    while i < |d|
      invariant 0 <= i <= |d|
      invariant DigitsEnd(s, 0) == DigitsEnd(s, i)
    {
      assert s[i] == d[i];
      i := i + 1;
    }
  }

  /** The empty string reads as 0 (nothing is left over); a string of white space does not. */
  lemma ToIntEdgeCases()
    ensures ToInt("") == Ok(0)
    ensures ToUInt("") == Ok(0)
    ensures ToInt(" ").Err?
    ensures ToInt("-").Err?
  {
    assert SkipSpaces(" ", 0) == 1;
  }

  // ---------------------------------------------------------------------------
  // toFloat and the vector conversions
  // ---------------------------------------------------------------------------

  function Pow10(n: nat): (r: nat)
    ensures r >= 1
  {
    if n == 0 then 1 else 10 * Pow10(n - 1)
  }

  /** What `strtof` reads, for plain decimal notation: white space, an optional sign,
      digits, and an optional fraction; at least one digit, else nothing is read. */
  datatype FloatScan = FloatScan(value: real, end: nat)

  function ScanFloat(s: string): (r: FloatScan)
    ensures r.end <= |s|
  {
    var i := SkipSpaces(s, 0);
    var signed := i < |s| && (s[i] == '+' || s[i] == '-');
    var j := if signed then i + 1 else i;
    var k := DigitsEnd(s, j);
    var hasPoint := k < |s| && s[k] == '.';
    var m := if hasPoint then DigitsEnd(s, k + 1) else k;
    if k == j && (!hasPoint || m == k + 1) then FloatScan(0.0, 0)
    else
      var whole := DigitsValue(s[j..k]) as real;
      var fraction := if hasPoint then DigitsValue(s[k + 1..m]) as real / Pow10(m - k - 1) as real else 0.0;
      var magnitude := whole + fraction;
      FloatScan(if signed && s[i] == '-' then -magnitude else magnitude, m)
  }

  function ToFloat(str: string): (r: Result<real>)
    ensures r.Ok? <==> ConsumedAll(str, ScanFloat(str).end)
  {
    var scan := ScanFloat(str);
    if !ConsumedAll(str, scan.end) then Err(Exception("Could not parse floating point value \"" + str + "\""))
    else Ok(scan.value)
  }

  /** `toVector2f`: exactly two tokens (default delimiters, empty tokens dropped), each a float. */
  function ToVector2f(str: string): (r: Result<Vec2>)
    ensures |Tokens(str, DefaultDelimiters, false)| != 2 ==> r == Err(Exception("Expected 2 values"))
    ensures var t := Tokens(str, DefaultDelimiters, false);
      r.Ok? <==> |t| == 2 && ToFloat(t[0]).Ok? && ToFloat(t[1]).Ok?
    ensures r.Ok? ==> var t := Tokens(str, DefaultDelimiters, false);
      |t| == 2 && ToFloat(t[0]) == Ok(r.value.x) && ToFloat(t[1]) == Ok(r.value.y)
  {
    var tokens := Tokens(str, DefaultDelimiters, false);
    if |tokens| != 2 then Err(Exception("Expected 2 values"))
    else
      var x :- ToFloat(tokens[0]);
      var y :- ToFloat(tokens[1]);
      Ok(Vec2(x, y))
  }

  /** `toVector3f`: exactly three tokens, each a float. */
  function ToVector3f(str: string): (r: Result<Vec3>)
    ensures |Tokens(str, DefaultDelimiters, false)| != 3 ==> r == Err(Exception("Expected 3 values"))
    ensures var t := Tokens(str, DefaultDelimiters, false);
      r.Ok? <==> |t| == 3 && ToFloat(t[0]).Ok? && ToFloat(t[1]).Ok? && ToFloat(t[2]).Ok?
    ensures r.Ok? ==> var t := Tokens(str, DefaultDelimiters, false);
      |t| == 3 && ToFloat(t[0]) == Ok(r.value.x) && ToFloat(t[1]) == Ok(r.value.y) && ToFloat(t[2]) == Ok(r.value.z)
  {
    var tokens := Tokens(str, DefaultDelimiters, false);
    if |tokens| != 3 then Err(Exception("Expected 3 values"))
    else
      var x :- ToFloat(tokens[0]);
      var y :- ToFloat(tokens[1]);
      var z :- ToFloat(tokens[2]);
      Ok(Vec3(x, y, z))
  }

  /** `toVector4f`: exactly four tokens, each a float. */
  function ToVector4f(str: string): (r: Result<Vec4>)
    ensures |Tokens(str, DefaultDelimiters, false)| != 4 ==> r == Err(Exception("Expected 4 values"))
    ensures var t := Tokens(str, DefaultDelimiters, false);
      r.Ok? <==> |t| == 4 && ToFloat(t[0]).Ok? && ToFloat(t[1]).Ok? && ToFloat(t[2]).Ok? && ToFloat(t[3]).Ok?
    ensures r.Ok? ==> var t := Tokens(str, DefaultDelimiters, false);
      |t| == 4 && ToFloat(t[0]) == Ok(r.value.x) && ToFloat(t[1]) == Ok(r.value.y)
      && ToFloat(t[2]) == Ok(r.value.z) && ToFloat(t[3]) == Ok(r.value.w)
  {
    var tokens := Tokens(str, DefaultDelimiters, false);
    if |tokens| != 4 then Err(Exception("Expected 4 values"))
    else
      var x :- ToFloat(tokens[0]);
      var y :- ToFloat(tokens[1]);
      var z :- ToFloat(tokens[2]);
      var w :- ToFloat(tokens[3]);
      Ok(Vec4(x, y, z, w))
  }

  /** An absent attribute reads as "", which tokenizes to one empty token, so it is
      never a vector. */
  lemma EmptyTextIsNoVector()
    ensures ToVector2f("") == Err(Exception("Expected 2 values"))
    ensures ToVector3f("") == Err(Exception("Expected 3 values"))
    ensures ToVector4f("") == Err(Exception("Expected 4 values"))
  {
    assert Tokens("", DefaultDelimiters, false) == [""];
  }
}
