/** Reading rsync's progress output, which separates lines by CR, LF or CR LF, as it arrives. */
module Progress {
  import opened Text

  predicate IsEnd(c: char) {
    c == '\r' || c == '\n'
  }

  /** The index of the first line end, or the length of the data. */
  function FirstEnd(s: string): (i: nat)
    ensures i <= |s| && (i < |s| ==> IsEnd(s[i]))
    ensures forall j | 0 <= j < i :: !IsEnd(s[j])
  {
    if s == [] || IsEnd(s[0]) then 0 else 1 + FirstEnd(s[1..])
  }

  // ---- The split function --------------------------------------------------------------------------

  datatype Scan = Scan(advance: nat, token: Option<string>)

  function ScanSpec(data: string, atEOF: bool): (r: Scan)
    ensures r.advance <= |data|
    ensures r.token.Some? ==> r.advance > 0
  {
    var i := FirstEnd(data);
    if i < |data| then
      var both := data[i] == '\r' && i + 1 < |data| && data[i + 1] == '\n';
      Scan(if both then i + 2 else i + 1, Some(data[..i]))
    else if atEOF && |data| > 0 then Scan(|data|, Some(data))
    else Scan(0, None)
  }

  lemma FirstEndIs(s: string, i: nat)
    requires i < |s| && IsEnd(s[i]) && forall j | 0 <= j < i :: !IsEnd(s[j])
    ensures FirstEnd(s) == i
  {
  }

  method ScanRsyncLines(data: string, atEOF: bool) returns (advance: nat, token: Option<string>)
    ensures Scan(advance, token) == ScanSpec(data, atEOF)
  {
    for i := 0 to |data|
      invariant forall j | 0 <= j < i :: !IsEnd(data[j])
    {
      if data[i] == '\r' || data[i] == '\n' {
        FirstEndIs(data, i);
        var adv := i + 1;
        if data[i] == '\r' && i + 1 < |data| && data[i + 1] == '\n' {
          adv := i + 2;
        }
        return adv, Some(data[..i]);
      }
    }
    if atEOF && |data| > 0 {
      return |data|, Some(data);
    }
    return 0, None;
  }

  /** A line ends at CR LF, CR or LF; without an end it is a token at the end of the stream only. */
  lemma ScanMeans(line: string, rest: string, atEOF: bool)
    requires forall i | 0 <= i < |line| :: line[i] != '\r' && line[i] != '\n'
    ensures ScanSpec(line + "\r\n" + rest, atEOF) == Scan(|line| + 2, Some(line))
    ensures ScanSpec(line + "\n" + rest, atEOF) == Scan(|line| + 1, Some(line))
    ensures (rest == "" || rest[0] != '\n') ==> ScanSpec(line + "\r" + rest, atEOF) == Scan(|line| + 1, Some(line))
    ensures ScanSpec(line, atEOF) == if atEOF && line != "" then Scan(|line|, Some(line)) else Scan(0, None)
  {
    FirstEndIs(line + "\r\n" + rest, |line|);
    FirstEndIs(line + "\n" + rest, |line|);
    FirstEndIs(line + "\r" + rest, |line|);
    assert (line + "\r\n" + rest)[..|line|] == line && (line + "\n" + rest)[..|line|] == line;
    assert (line + "\r" + rest)[..|line|] == line;
  }

  /** The tokens of a stream that is all there at once. */
  function SplitWhole(s: string): seq<string>
    decreases |s|
  {
    var r := ScanSpec(s, true);
    if r.token.None? then [] else [r.token.value] + SplitWhole(s[r.advance..])
  }

  // ---- What the tokens mean ------------------------------------------------------------------------

  /** The maximal non-empty stretches without a line end. */
  function Runs(s: string): seq<string>
    decreases |s|
  {
    var i := FirstEnd(s);
    (if i == 0 then [] else [s[..i]]) + (if i < |s| then Runs(s[i + 1..]) else [])
  }

  function NonEmpty(tokens: seq<string>): seq<string> {
    if tokens == [] then []
    else NonEmpty(tokens[..|tokens| - 1]) + (if tokens[|tokens| - 1] == "" then [] else [tokens[|tokens| - 1]])
  }

  lemma NonEmptyOneMore(tokens: seq<string>, t: string)
    ensures NonEmpty(tokens + [t]) == NonEmpty(tokens) + (if t == "" then [] else [t])
  {
    assert (tokens + [t])[..|tokens|] == tokens;
  }

  lemma {:induction false} NonEmptyAppend(a: seq<string>, b: seq<string>)
    ensures NonEmpty(a + b) == NonEmpty(a) + NonEmpty(b)
  {
    if b == [] {
      assert a + b == a;
    } else {
      var n := |b| - 1;
      NonEmptyAppend(a, b[..n]);
      assert (a + b)[..|a + b| - 1] == a + b[..n];
    }
  }

  lemma RunsOfFirst(line: string, end: char, rest: string)
    requires IsEnd(end) && forall i | 0 <= i < |line| :: !IsEnd(line[i])
    ensures Runs(line + [end] + rest) == (if line == "" then [] else [line]) + Runs(rest)
  {
    var s := line + [end] + rest;
    FirstEndIs(s, |line|);
    assert s[..|line|] == line && s[|line| + 1..] == rest;
  }

  /** A line followed by any terminators is one run: the choice of terminators carries no meaning. */
  lemma {:induction false} RunsOfLine(line: string, ends: string, rest: string)
    requires forall i | 0 <= i < |line| :: !IsEnd(line[i])
    requires ends != "" && forall i | 0 <= i < |ends| :: IsEnd(ends[i])
    ensures Runs(line + ends + rest) == (if line == "" then [] else [line]) + Runs(rest)
    decreases |ends|
  {
    hide Runs, IsEnd;
    RunsOfFirst(line, ends[0], ends[1..] + rest);
    assert line + ends + rest == line + [ends[0]] + (ends[1..] + rest);
    if |ends| > 1 {
      assert "" + ends[1..] + rest == ends[1..] + rest;
      RunsOfLine("", ends[1..], rest);
    } else {
      assert ends[1..] + rest == rest;
    }
  }

  lemma RunsSkipEnd(s: string)
    requires s != "" && IsEnd(s[0])
    ensures Runs(s) == Runs(s[1..])
  {
    assert FirstEnd(s) == 0;
  }

  lemma SecondEnd(s: string)
    requires s != "" && s[0] == '\n'
    ensures IsEnd(s[0])
  {
  }

  /** The data up to its first line end is one run, whatever follows. */
  lemma CutRun(data: string, rest: string)
    requires FirstEnd(data) < |data|
    ensures var i := FirstEnd(data);
            Runs(data + rest) == (if i == 0 then [] else [data[..i]]) + Runs(data[i + 1..] + rest)
  {
    hide Runs, IsEnd;
    var i := FirstEnd(data);
    RunsOfFirst(data[..i], data[i], data[i + 1..] + rest);
    assert data + rest == data[..i] + [data[i]] + (data[i + 1..] + rest);
  }

  lemma RunsOfRest(s: string)
    requires FirstEnd(s) == |s|
    ensures Runs(s) == (if s == "" then [] else [s]) && Runs("") == []
  {
    assert s[..|s|] == s;
  }

  /** Taking one token off the front of a buffer leaves the runs of buffer and future input in order. */
  lemma ScanKeepsRuns(data: string, atEOF: bool, rest: string)
    requires ScanSpec(data, atEOF).token.Some?
    requires atEOF ==> rest == ""
    ensures var r := ScanSpec(data, atEOF);
            var first := if r.token.value == "" then [] else [r.token.value];
            Runs(data + rest) == first + Runs(data[r.advance..] + rest)
  {
    hide Runs, FirstEnd, IsEnd;
    var r := ScanSpec(data, atEOF);
    var i := FirstEnd(data);
    if i < |data| {
      CutRun(data, rest);
      if r.advance == i + 2 {
        SecondEnd(data[i + 1..]);
        RunsSkipEnd(data[i + 1..] + rest);
        assert (data[i + 1..] + rest)[1..] == data[i + 2..] + rest;
      }
    } else {
      RunsOfRest(data);
      assert data + rest == data && data[..i] == data && data[r.advance..] + rest == "";
    }
  }

  lemma {:induction false} WholeIsRuns(s: string)
    ensures NonEmpty(SplitWhole(s)) == Runs(s)
    decreases |s|
  {
    var r := ScanSpec(s, true);
    if r.token.Some? {
      WholeIsRuns(s[r.advance..]);
      ScanKeepsRuns(s, true, "");
      assert s + "" == s && s[r.advance..] + "" == s[r.advance..];
      NonEmptyAppend([r.token.value], SplitWhole(s[r.advance..]));
      NonEmptyOneMore([], r.token.value);
      assert [] + [r.token.value] == [r.token.value];
    }
  }

  // ---- Parsing one line ----------------------------------------------------------------------------

  /** `strings.Fields`. */
  function Fields(s: string): seq<string>
    decreases |s|
  {
    var t := TrimLeft(s);
    if t == "" then []
    else
      var n := FirstSpace(t);
      [t[..n]] + Fields(t[n..])
  }

  function FirstSpace(s: string): (i: nat)
    ensures i <= |s|
    ensures s != "" && !IsSpace(s[0]) ==> i > 0
  {
    if s == [] || IsSpace(s[0]) then 0 else 1 + FirstSpace(s[1..])
  }

  function WithoutCommas(s: string): string {
    if s == [] then "" else (if s[0] == ',' then "" else [s[0]]) + WithoutCommas(s[1..])
  }

  function WithoutPercent(s: string): string {
    if s != [] && s[|s| - 1] == '%' then s[..|s| - 1] else s
  }

  /** Go's `/`: towards zero. */
  function Quotient(a: int, b: int): int
    requires b != 0
  {
    if a >= 0 then a / b else -((-a) / b)
  }

  function Total(bytes: Int64, pct: Int64): Int64
    requires pct != 0
  {
    Wrap64(Quotient(Wrap64(bytes * 100), pct))
  }

  datatype Progress = Progress(bytesMoved: Int64, totalSize: Int64)

  function ParseRsyncProgress(raw: string): Option<Progress> {
    var line := Trim(raw);
    if line == "" then None
    else
      var fields := Fields(line);
      if |fields| < 2 then None
      else
        var bytes := ParseInt(WithoutCommas(fields[0]));
        if bytes.None? then None
        else
          var pct := ParseInt(WithoutPercent(fields[1]));
          if pct.None? || pct.value == 0 then Some(Progress(bytes.value, 0))
          else Some(Progress(bytes.value, Total(bytes.value, pct.value)))
  }

  /** Commas group digits and mean nothing, wherever they stand. */
  lemma {:induction false} CommasGo(a: string, b: string)
    ensures WithoutCommas(a + "," + b) == WithoutCommas(a + b)
    ensures ',' !in a ==> WithoutCommas(a) == a
  {
    if a == "" {
      assert a + "," + b == "," + b && a + b == b;
    } else {
      CommasGo(a[1..], b);
      assert (a + "," + b)[1..] == a[1..] + "," + b && (a + b)[1..] == a[1..] + b;
    }
  }

  predicate NoSpaces(s: string) {
    forall i | 0 <= i < |s| :: !IsSpace(s[i])
  }

  predicate Apart(tail: string) {
    tail == "" || IsSpace(tail[0])
  }

  lemma {:induction false} FirstSpaceIs(w: string, tail: string)
    requires NoSpaces(w) && Apart(tail)
    ensures FirstSpace(w + tail) == |w|
  {
    if w == "" {
      assert w + tail == tail;
    } else {
      FirstSpaceIs(w[1..], tail);
      assert (w + tail)[1..] == w[1..] + tail;
    }
  }

  lemma FieldsFirst(w: string, tail: string)
    requires w != "" && NoSpaces(w) && Apart(tail)
    ensures Fields(w + tail) == [w] + Fields(tail)
  {
    FirstSpaceIs(w, tail);
    assert TrimLeft(w + tail) == w + tail;
    assert (w + tail)[..|w|] == w && (w + tail)[|w|..] == tail;
  }

  lemma {:induction false} TrimLeftWithSpace(s: string, c: char)
    requires IsSpace(c)
    ensures TrimLeft(s + [c]) == if TrimLeft(s) == "" then "" else TrimLeft(s) + [c]
  {
    if s == "" {
      assert s + [c] == [c] && TrimLeft([c][1..]) == "";
    } else if IsSpace(s[0]) {
      TrimLeftWithSpace(s[1..], c);
      assert (s + [c])[1..] == s[1..] + [c];
    }
  }

  lemma {:induction false} FirstSpaceWithSpace(s: string, c: char)
    requires IsSpace(c)
    ensures FirstSpace(s + [c]) == FirstSpace(s)
  {
    if s != "" && !IsSpace(s[0]) {
      FirstSpaceWithSpace(s[1..], c);
      assert (s + [c])[1..] == s[1..] + [c];
    }
  }

  /** Space at the end adds no field. */
  lemma {:induction false} FieldsWithSpace(s: string, c: char)
    requires IsSpace(c)
    ensures Fields(s + [c]) == Fields(s)
    decreases |s|
  {
    var t := TrimLeft(s);
    TrimLeftWithSpace(s, c);
    if t != "" {
      FirstSpaceWithSpace(t, c);
      var n := FirstSpace(t);
      assert (t + [c])[..n] == t[..n] && (t + [c])[n..] == t[n..] + [c];
      FieldsWithSpace(t[n..], c);
    }
  }

  lemma {:induction false} FieldsTrimRight(s: string)
    ensures Fields(TrimRight(s)) == Fields(s)
    decreases |s|
  {
    hide Fields, IsSpace;
    if s != "" && IsSpace(s[|s| - 1]) {
      var n := |s| - 1;
      FieldsTrimRight(s[..n]);
      FieldsWithSpace(s[..n], s[n]);
      assert s == s[..n] + [s[n]];
    }
  }

  lemma FieldsTrim(s: string)
    ensures Fields(Trim(s)) == Fields(s)
  {
    FieldsTrimRight(TrimLeft(s));
  }

  lemma FormatHasNoSpaces(n: int)
    ensures NoSpaces(FormatInt(n)) && FormatInt(n) != ""
  {
    var digits := NatToDigits(if n < 0 then -n else n);
    forall i | 0 <= i < |digits|
      ensures !IsSpace(digits[i])
    {
      assert digits[i] in digits;
    }
  }

  lemma LineFields(lead: string, count: string, gap: string, percent: string, rest: string)
    requires (forall i | 0 <= i < |lead| :: IsSpace(lead[i])) && forall i | 0 <= i < |gap| :: IsSpace(gap[i])
    requires count != "" && NoSpaces(count) && percent != "" && NoSpaces(percent) && gap != "" && Apart(rest)
    ensures Fields(Trim(lead + (count + (gap + (percent + rest))))) == [count, percent] + Fields(rest)
  {
    hide Fields, Trim, TrimLeft, IsSpace, FirstSpace;
    var line := count + (gap + (percent + rest));
    FieldsTrim(lead + line);
    FieldsSkip(lead, line);
    FieldsFirst(count, gap + (percent + rest));
    FieldsSkip(gap, percent + rest);
    FieldsFirst(percent, rest);
    assert [count] + ([percent] + Fields(rest)) == [count, percent] + Fields(rest);
  }

  lemma FieldsSkip(lead: string, s: string)
    requires forall i | 0 <= i < |lead| :: IsSpace(lead[i])
    ensures Fields(lead + s) == Fields(s)
  {
    TrimLeftSkips(lead, s);
  }

  /**
   * A progress line reads as what it says: the byte count, however grouped by commas, and the size the
   * percentage extrapolates to, unknown at zero percent.
   */
  lemma ProgressLineReads(lead: string, count: string, bytes: Int64, gap: string, pct: Int64, rest: string)
    requires (forall i | 0 <= i < |lead| :: IsSpace(lead[i])) && forall i | 0 <= i < |gap| :: IsSpace(gap[i])
    requires NoSpaces(count) && WithoutCommas(count) == FormatInt(bytes) && gap != "" && Apart(rest)
    ensures ParseRsyncProgress(lead + (count + (gap + (FormatInt(pct) + "%" + rest))))
         == Some(Progress(bytes, if pct == 0 then 0 else Total(bytes, pct)))
  {
    hide Total, Fields, Trim, IsSpace, FormatInt, ParseInt;
    var percent := FormatInt(pct) + "%";
    FormatHasNoSpaces(bytes);
    FormatHasNoSpaces(pct);
    PercentHasNoSpaces(pct);
    LineFields(lead, count, gap, percent, rest);
    ParseFormat(bytes);
    ParseFormat(pct);
    assert WithoutPercent(percent) == FormatInt(pct);
    assert FormatInt(pct) + "%" + rest == percent + rest;
    assert Fields("") == [] by { EmptyHasNoFields(); }
  }

  /** A character no number is written with. */
  predicate Foreign(c: char) {
    !('0' <= c <= '9') && c != '+' && c != '-'
  }

  lemma ForeignIsNoNumber(s: string, c: char)
    requires c in s && Foreign(c)
    ensures ParseInt(s) == None
  {
    if s[0] == '-' || s[0] == '+' {
      assert s == [s[0]] + s[1..];
    }
  }

  lemma {:induction false} OnlyCommasGo(s: string, c: char)
    requires c in s && c != ','
    ensures c in WithoutCommas(s)
  {
    if s[0] != c {
      OnlyCommasGo(s[1..], c);
    }
  }

  /** Other output is no progress: a line that does not begin with a number, or has nothing after it. */
  lemma OtherLineIsIgnored(lead: string, first: string, rest: string)
    requires (forall i | 0 <= i < |lead| :: IsSpace(lead[i])) && NoSpaces(first) && Apart(rest)
    requires || (exists i :: 0 <= i < |first| && Foreign(first[i]) && first[i] != ',')
             || (forall i | 0 <= i < |rest| :: IsSpace(rest[i]))
    ensures ParseRsyncProgress(lead + (first + rest)) == None
  {
    hide ParseInt, Trim, TrimLeft, IsSpace, Fields, WithoutCommas, FirstSpace, Foreign;
    FieldsTrim(lead + (first + rest));
    FieldsSkip(lead, first + rest);
    if forall i | 0 <= i < |rest| :: IsSpace(rest[i]) {
      FieldsSkip(rest, "");
      EmptyHasNoFields();
      assert rest + "" == rest;
    }
    if first == "" {
      assert first + rest == rest;
    } else {
      FieldsFirst(first, rest);
      if i :| 0 <= i < |first| && Foreign(first[i]) && first[i] != ',' {
        OnlyCommasGo(first, first[i]);
        ForeignIsNoNumber(WithoutCommas(first), first[i]);
      }
    }
  }

  /** Where a count is followed by something other than a percentage, the size is unknown. */
  lemma UnknownSize(lead: string, count: string, bytes: Int64, gap: string, word: string, rest: string)
    requires (forall i | 0 <= i < |lead| :: IsSpace(lead[i])) && forall i | 0 <= i < |gap| :: IsSpace(gap[i])
    requires NoSpaces(count) && WithoutCommas(count) == FormatInt(bytes) && gap != ""
    requires word != "" && NoSpaces(word) && Apart(rest)
    requires exists i :: 0 <= i < |word| - 1 && Foreign(word[i])
    ensures ParseRsyncProgress(lead + (count + (gap + (word + rest)))) == Some(Progress(bytes, 0))
  {
    hide Fields, Trim, IsSpace, FormatInt, ParseInt, Total, Foreign;
    FormatHasNoSpaces(bytes);
    LineFields(lead, count, gap, word, rest);
    ParseFormat(bytes);
    var i :| 0 <= i < |word| - 1 && Foreign(word[i]);
    assert WithoutPercent(word)[i] == word[i];
    ForeignIsNoNumber(WithoutPercent(word), word[i]);
    assert Fields("") == [] by { EmptyHasNoFields(); }
  }

  lemma PercentHasNoSpaces(pct: int)
    ensures NoSpaces(FormatInt(pct) + "%")
  {
    FormatHasNoSpaces(pct);
  }

  lemma EmptyHasNoFields()
    ensures Fields("") == []
  {
  }

  /** The size extrapolated from a percentage is the true quotient unless a hundred times the count wraps. */
  lemma TotalIsExact(bytes: Int64, pct: Int64)
    requires 0 <= bytes && 1 <= pct
    ensures Total(bytes, pct) == bytes * 100 / pct <==> bytes <= INT64_MAX / 100
    ensures bytes <= INT64_MAX / 100 && pct <= 100 ==> bytes <= Total(bytes, pct)
  {
    var exact := bytes * 100;
    if bytes <= INT64_MAX / 100 {
      assert Wrap64(exact) == exact;
      if pct <= 100 {
        QuotientBounds(exact, pct);
      }
      QuotientInRange(exact, pct);
      assert Total(bytes, pct) == exact / pct;
    } else {
      WrappedIsLess(bytes, pct);
    }
  }

  lemma Times(x: nat, y: nat, z: nat)
    requires x <= y
    ensures x * z <= y * z
  {
  }

  lemma QuotientBounds(a: int, b: int)
    requires 0 <= a && 1 <= b <= 100
    ensures a / 100 <= a / b
  {
    var q := a / b;
    assert a == b * q + a % b;
    assert b * (q + 1) == b * q + b;
    Times(b, 100, q + 1);
  }

  lemma QuotientGrows(x: int, y: int, b: int)
    requires 0 <= x && 1 <= b && x + b <= y
    ensures x / b < y / b
  {
    var p, q := x / b, y / b;
    assert x == b * p + x % b && y == b * q + y % b;
    if q <= p {
      Times(q, p, b);
    }
  }

  lemma QuotientShrinks(x: int, y: int, b: int)
    requires InInt64(x) && x + 0x1_0000_0000_0000_0000 <= y && 1 <= b <= INT64_MAX <= y
    ensures Wrap64(Quotient(x, b)) < y / b
  {
    QuotientInRange(x, b);
    if x >= 0 {
      QuotientGrows(x, y, b);
    } else {
      QuotientGrows(0, y, b);
      assert Quotient(x, b) <= 0 <= 0 / b;
    }
  }

  lemma WrappedIsLess(bytes: Int64, pct: Int64)
    requires INT64_MAX / 100 < bytes && 1 <= pct
    ensures Total(bytes, pct) < bytes * 100 / pct
  {
    var exact := bytes * 100;
    var wrapped := Wrap64(exact);
    assert wrapped <= exact - 0x1_0000_0000_0000_0000;
    assert InInt64(pct) && INT64_MAX < 100 * (INT64_MAX / 100 + 1) <= exact;
    QuotientShrinks(wrapped, exact, pct);
  }

  lemma QuotientIsSmaller(n: nat, b: nat)
    requires 1 <= b
    ensures 0 <= n / b <= n
  {
    var q := n / b;
    assert n == b * q + n % b;
    Times(1, b, q);
  }

  lemma QuotientInRange(a: int, b: int)
    requires InInt64(a) && 1 <= b
    ensures var q := Quotient(a, b); InInt64(q) && (a < 0 ==> q <= 0) && (a >= 0 ==> q >= 0)
  {
    if a < 0 {
      QuotientIsSmaller(-a, b);
    } else {
      QuotientIsSmaller(a, b);
    }
  }

  // ---- The stream ----------------------------------------------------------------------------------

  /** The callback one token causes, if any. */
  function CallOf(token: string): seq<Progress> {
    var p := ParseRsyncProgress(token);
    if p.Some? then [p.value] else []
  }

  function Callbacks(tokens: seq<string>): seq<Progress> {
    if tokens == [] then [] else Callbacks(tokens[..|tokens| - 1]) + CallOf(tokens[|tokens| - 1])
  }

  lemma CallbacksOneMore(tokens: seq<string>, t: string)
    ensures Callbacks(tokens + [t]) == Callbacks(tokens) + CallOf(t)
  {
    assert (tokens + [t])[..|tokens|] == tokens;
  }

  lemma EmptyIsRejected()
    ensures CallOf("") == []
  {
    assert Trim("") == "";
  }

  /** Empty tokens cause no callback. */
  lemma {:induction false} CallbacksIgnoreEmpty(tokens: seq<string>)
    ensures Callbacks(NonEmpty(tokens)) == Callbacks(tokens)
  {
    if tokens != [] {
      var init, last := tokens[..|tokens| - 1], tokens[|tokens| - 1];
      CallbacksIgnoreEmpty(init);
      if last == "" {
        EmptyIsRejected();
        assert NonEmpty(tokens) == NonEmpty(init);
      } else {
        CallbacksOneMore(NonEmpty(init), last);
      }
    }
  }

  function Concat(chunks: seq<string>): string {
    if chunks == [] then "" else chunks[0] + Concat(chunks[1..])
  }

  lemma TakeToken(tokens: seq<string>, buf: string, atEOF: bool, rest: string)
    requires ScanSpec(buf, atEOF).token.Some?
    requires atEOF ==> rest == ""
    ensures var r := ScanSpec(buf, atEOF);
            NonEmpty(tokens + [r.token.value]) + Runs(buf[r.advance..] + rest) == NonEmpty(tokens) + Runs(buf + rest)
  {
    var r := ScanSpec(buf, atEOF);
    var kept, more := if r.token.value == "" then [] else [r.token.value], Runs(buf[r.advance..] + rest);
    ScanKeepsRuns(buf, atEOF, rest);
    NonEmptyOneMore(tokens, r.token.value);
    Reassociate(NonEmpty(tokens), kept, more);
  }

  lemma Reassociate(a: seq<string>, b: seq<string>, c: seq<string>)
    ensures a + b + c == a + (b + c)
  {
  }

  // The scanner's buffer holds one line at most: a longer one ends the scan.

  const LINE_LIMIT: nat := 64 * 1024

  predicate Fits(runs: seq<string>) {
    forall i | 0 <= i < |runs| :: |runs[i]| < LINE_LIMIT
  }

  /** The lines before the first that is too long. */
  function Fitting(runs: seq<string>): seq<string> {
    if runs == [] || |runs[0]| >= LINE_LIMIT then [] else [runs[0]] + Fitting(runs[1..])
  }

  lemma {:induction false} FittingAppend(a: seq<string>, b: seq<string>)
    requires Fits(a)
    ensures Fitting(a + b) == a + Fitting(b)
  {
    if a == [] {
      assert a + b == b && a + Fitting(b) == Fitting(b);
    } else {
      FittingAppend(a[1..], b);
      assert (a + b)[1..] == a[1..] + b;
    }
  }

  lemma {:induction false} FittingAll(runs: seq<string>)
    ensures Fitting(runs) == runs <==> Fits(runs)
  {
    if runs != [] {
      FittingAll(runs[1..]);
      assert runs == [runs[0]] + runs[1..];
    }
  }

  /** A line of 65536 characters or more ends the scan: what is before it counts, and nothing after it. */
  lemma LongLineEnds(before: seq<string>, line: string, rest: seq<string>)
    requires (forall i | 0 <= i < |before| :: |before[i]| < 65536) && |line| >= 65536
    ensures Fitting(before + [line] + rest) == before && !Fits(before + [line] + rest)
    ensures Fitting(before) == before && Fits(before)
  {
    FittingAppend(before, [line] + rest);
    FittingAll(before);
    assert before + [line] + rest == before + ([line] + rest) && (before + [line] + rest)[|before|] == line;
    assert before + [] == before;
  }

  /** A buffer that is full and holds no line end begins a line that is too long. */
  lemma FullBuffer(buf: string, rest: string)
    requires FirstEnd(buf) == |buf| == LINE_LIMIT
    ensures Fitting(Runs(buf + rest)) == [] && !Fits(Runs(buf + rest))
  {
    var i := FirstEnd(buf + rest);
    assert forall k | 0 <= k < |buf| :: (buf + rest)[k] == buf[k];
    assert Runs(buf + rest)[0] == (buf + rest)[..i];
  }

  lemma ShortToken(tokens: seq<string>, buf: string, atEOF: bool)
    requires ScanSpec(buf, atEOF).token.Some? && |buf| <= LINE_LIMIT && (atEOF ==> |buf| < LINE_LIMIT)
    requires Fits(NonEmpty(tokens))
    ensures Fits(NonEmpty(tokens + [ScanSpec(buf, atEOF).token.value]))
  {
    NonEmptyOneMore(tokens, ScanSpec(buf, atEOF).token.value);
  }

  lemma ReadPart(buf: string, pending: string, n: nat, rest: string)
    requires n <= |pending|
    ensures buf + (pending + rest) == buf + pending[..n] + (pending[n..] + rest)
  {
    assert pending == pending[..n] + pending[n..];
  }

  lemma NextChunk(chunks: seq<string>, next: nat)
    requires next < |chunks|
    ensures "" + Concat(chunks[next..]) == chunks[next] + Concat(chunks[next + 1..])
  {
    assert chunks[next..][1..] == chunks[next + 1..];
  }

  /** What remains when the scan stops early: nothing of it fits. */
  lemma StoppedEarly(tokens: seq<string>, buf: string, rest: string, all: seq<string>)
    requires FirstEnd(buf) == |buf| == LINE_LIMIT && Fits(NonEmpty(tokens))
    requires NonEmpty(tokens) + Runs(buf + rest) == all
    ensures NonEmpty(tokens) == Fitting(all) && !Fits(all)
  {
    FullBuffer(buf, rest);
    FittingAppend(NonEmpty(tokens), Runs(buf + rest));
    FittingAll(all);
    FittingAll(Runs(buf + rest));
    assert NonEmpty(tokens) + [] == NonEmpty(tokens);
  }

  /**
   * The scanner loop over the reads, each element of `chunks` delivered as room allows, and then end of
   * file. However the stream is cut into reads, the callbacks are those of the stream's lines up to the
   * first that is too long; that there is such a line is the only error.
   */
  method StreamRsyncProgress(chunks: seq<string>) returns (tokens: seq<string>, calls: seq<Progress>, tooLong: bool)
    ensures tooLong <==> !Fits(Runs(Concat(chunks)))
    ensures NonEmpty(tokens) == Fitting(Runs(Concat(chunks)))
    ensures calls == Callbacks(Fitting(Runs(Concat(chunks))))
    ensures !tooLong ==> calls == Callbacks(SplitWhole(Concat(chunks)))
  {
    tokens, calls := [], [];
    var buf, pending, next, atEOF := "", "", 0, false;
    ghost var all := Runs(Concat(chunks));
    assert chunks[next..] == chunks && buf + (pending + Concat(chunks)) == Concat(chunks);
    hide Runs, Callbacks, NonEmpty, Concat, FirstEnd, ParseRsyncProgress, Fits, Fitting, ScanSpec, IsEnd;
    NoTokens();
    while true
      invariant next <= |chunks| && |buf| <= LINE_LIMIT
      invariant atEOF ==> next == |chunks| && pending == "" && |buf| < LINE_LIMIT
      invariant NonEmpty(tokens) + Runs(buf + (pending + Concat(chunks[next..]))) == all
      invariant Fits(NonEmpty(tokens)) && calls == Callbacks(tokens)
      decreases |chunks| - next, |pending|, !atEOF, |buf|
    {
      if |buf| > 0 || atEOF {
        var advance, token := ScanRsyncLines(buf, atEOF);
        if token.Some? {
          NothingElse(chunks, next, atEOF, pending);
          TakeToken(tokens, buf, atEOF, pending + Concat(chunks[next..]));
          ShortToken(tokens, buf, atEOF);
          CallbacksOneMore(tokens, token.value);
          tokens := tokens + [token.value];
          buf := buf[advance..];
          var p := ParseRsyncProgress(token.value);
          if p.Some? {
            calls := calls + [p.value];
          }
          continue;
        }
      }
      if atEOF {
        break;
      }
      if |buf| == LINE_LIMIT {
        NoEnd(buf);
        StoppedEarly(tokens, buf, pending + Concat(chunks[next..]), all);
        CallbacksIgnoreEmpty(tokens);
        return tokens, calls, true;
      }
      if pending != "" {
        var n := if |pending| <= LINE_LIMIT - |buf| then |pending| else LINE_LIMIT - |buf|;
        ReadPart(buf, pending, n, Concat(chunks[next..]));
        buf, pending := buf + pending[..n], pending[n..];
      } else if next < |chunks| {
        NextChunk(chunks, next);
        pending, next := chunks[next], next + 1;
      } else {
        atEOF := true;
      }
    }
    NothingElse(chunks, next, atEOF, pending);
    NoRuns(buf);
    FittingAll(all);
    WholeIsRuns(Concat(chunks));
    CallbacksIgnoreEmpty(tokens);
    CallbacksIgnoreEmpty(SplitWhole(Concat(chunks)));
    tooLong := false;
  }

  lemma NoTokens()
    ensures NonEmpty([]) == [] && Callbacks([]) == [] && Fits([])
  {
  }

  lemma NothingElse(chunks: seq<string>, next: nat, atEOF: bool, pending: string)
    requires next <= |chunks| && (atEOF ==> next == |chunks| && pending == "")
    ensures atEOF ==> pending + Concat(chunks[next..]) == ""
  {
  }

  lemma NoEnd(buf: string)
    requires ScanSpec(buf, false).token.None?
    ensures FirstEnd(buf) == |buf|
  {
  }

  lemma NoRuns(buf: string)
    requires ScanSpec(buf, true).token.None?
    ensures buf == "" && Runs(buf + "") == []
  {
  }
}
