/** The parts of Go's `strings` and `strconv` the parsers below are written with. */
module Text {

  datatype Option<+T> = None | Some(value: T)

  // ---- Trimming --------------------------------------------------------------------------------

  /** Go's `unicode.IsSpace`. */
  predicate IsSpace(c: char) {
    var u := c as int;
    || 9 <= u <= 13 || u == 0x20 || u == 0x85 || u == 0xA0 || u == 0x1680 || 0x2000 <= u <= 0x200a
    || u == 0x2028 || u == 0x2029 || u == 0x202f || u == 0x205f || u == 0x3000
  }

  predicate NoLeadingSpace(s: string) {
    s != [] ==> !IsSpace(s[0])
  }

  predicate NoTrailingSpace(s: string) {
    s != [] ==> !IsSpace(s[|s| - 1])
  }

  predicate Trimmed(s: string) {
    NoLeadingSpace(s) && NoTrailingSpace(s)
  }

  function TrimLeft(s: string): (r: string)
    ensures |r| <= |s|
    ensures NoLeadingSpace(r)
    ensures NoLeadingSpace(s) ==> r == s
  {
    if s != [] && IsSpace(s[0]) then TrimLeft(s[1..]) else s
  }

  function TrimRight(s: string): (r: string)
    ensures NoTrailingSpace(r)
    ensures NoLeadingSpace(s) ==> NoLeadingSpace(r)
    ensures NoTrailingSpace(s) ==> r == s
  {
    if s != [] && IsSpace(s[|s| - 1]) then TrimRight(s[..|s| - 1]) else s
  }

  /** `strings.TrimSpace`. */
  function Trim(s: string): (r: string)
    ensures Trimmed(r)
    ensures Trimmed(s) ==> r == s
  {
    TrimRight(TrimLeft(s))
  }

  lemma {:induction false} TrimLeftKeepsOut(s: string, c: char)
    requires c !in s
    ensures c !in TrimLeft(s)
  {
    if s != [] && IsSpace(s[0]) {
      TrimLeftKeepsOut(s[1..], c);
    }
  }

  lemma {:induction false} TrimRightKeepsOut(s: string, c: char)
    requires c !in s
    ensures c !in TrimRight(s)
  {
    if s != [] && IsSpace(s[|s| - 1]) {
      TrimRightKeepsOut(s[..|s| - 1], c);
    }
  }

  lemma TrimKeepsOut(s: string, c: char)
    requires c !in s
    ensures c !in Trim(s)
  {
    TrimLeftKeepsOut(s, c);
    TrimRightKeepsOut(TrimLeft(s), c);
  }

  lemma {:induction false} TrimLeftSkips(lead: string, s: string)
    requires forall i | 0 <= i < |lead| :: IsSpace(lead[i])
    ensures TrimLeft(lead + s) == TrimLeft(s)
  {
    if lead == "" {
      assert lead + s == s;
    } else {
      TrimLeftSkips(lead[1..], s);
      assert (lead + s)[1..] == lead[1..] + s;
    }
  }

  lemma {:induction false} TrimRightSkips(s: string, tail: string)
    requires forall i | 0 <= i < |tail| :: IsSpace(tail[i])
    ensures TrimRight(s + tail) == TrimRight(s)
  {
    if tail == "" {
      assert s + tail == s;
    } else {
      var n := |tail| - 1;
      TrimRightSkips(s, tail[..n]);
      assert (s + tail)[..|s| + n] == s + tail[..n];
    }
  }

  /** Trimming takes the padding off and nothing else. */
  lemma TrimPads(lead: string, s: string, tail: string)
    requires (forall i | 0 <= i < |lead| :: IsSpace(lead[i])) && forall i | 0 <= i < |tail| :: IsSpace(tail[i])
    requires Trimmed(s)
    ensures Trim(lead + (s + tail)) == s
  {
    TrimLeftSkips(lead, s + tail);
    if s == "" {
      TrimLeftSkips(tail, "");
      assert s + tail == tail && tail + "" == tail;
    } else {
      TrimRightSkips(s, tail);
    }
  }

  lemma {:induction false} TrimRightKeeps(s: string, c: char)
    requires c in s && !IsSpace(c)
    ensures c in TrimRight(s)
  {
    if IsSpace(s[|s| - 1]) {
      TrimRightKeeps(s[..|s| - 1], c);
    }
  }

  lemma {:induction false} TrimKeeps(s: string, c: char)
    requires c in s && !IsSpace(c)
    ensures c in Trim(s)
  {
    if IsSpace(s[0]) {
      TrimKeeps(s[1..], c);
    } else {
      TrimRightKeeps(s, c);
    }
  }

  // ---- Splitting -------------------------------------------------------------------------------

  /** The index of the first `sep`, or the length of `s`. */
  function Find(s: string, sep: char): (i: nat)
    ensures i <= |s| && sep !in s[..i]
    ensures i < |s| ==> s[i] == sep
    ensures i == |s| <==> sep !in s
  {
    if s == [] || s[0] == sep then 0
    else
      assert forall j | 0 <= j < Find(s[1..], sep) :: s[..1 + Find(s[1..], sep)][1 + j] == s[1..][j];
      1 + Find(s[1..], sep)
  }

  lemma FindPrefix(a: string, sep: char, rest: string)
    requires sep !in a
    ensures Find(a + [sep] + rest, sep) == |a|
  {
    var s := a + [sep] + rest;
    assert s[|a|] == sep && s[..|a|] == a;
  }

  /** `strings.Split` on a one-character separator. */
  function Split(s: string, sep: char): (parts: seq<string>)
    ensures parts != []
    ensures forall i | 0 <= i < |parts| :: sep !in parts[i]
    decreases |s|
  {
    var i := Find(s, sep);
    if i == |s| then [s] else [s[..i]] + Split(s[i + 1..], sep)
  }

  /** `strings.SplitN` on a one-character separator. */
  function SplitN(s: string, sep: char, n: nat): (parts: seq<string>)
    requires 1 <= n
    ensures 1 <= |parts| <= n
    ensures forall i | 0 <= i < |parts| && i < n - 1 :: sep !in parts[i]
    decreases n
  {
    var i := Find(s, sep);
    if n == 1 || i == |s| then [s] else [s[..i]] + SplitN(s[i + 1..], sep, n - 1)
  }

  lemma SplitNStep(s: string, sep: char, n: nat)
    requires 1 <= n
    ensures var i := Find(s, sep);
            SplitN(s, sep, n) == if n == 1 || i == |s| then [s] else [s[..i]] + SplitN(s[i + 1..], sep, n - 1)
  {
    hide Find;
  }

  /** The first part begins the text and the last part ends it. */
  lemma {:induction false} SplitNEnds(s: string, sep: char, n: nat)
    requires 1 <= n
    ensures var parts := SplitN(s, sep, n);
            var last := parts[|parts| - 1];
            && (parts[0] != [] ==> s != [] && parts[0][0] == s[0])
            && (last != [] ==> s != [] && last[|last| - 1] == s[|s| - 1])
    decreases n
  {
    hide SplitN;
    var i := Find(s, sep);
    SplitNStep(s, sep, n);
    if n > 1 && i < |s| {
      SplitNEnds(s[i + 1..], sep, n - 1);
    }
  }

  lemma {:induction false} SplitNKeepsOut(s: string, sep: char, n: nat, c: char)
    requires 1 <= n && c !in s
    ensures forall i | 0 <= i < |SplitN(s, sep, n)| :: c !in SplitN(s, sep, n)[i]
    decreases n
  {
    var i := Find(s, sep);
    if n > 1 && i < |s| {
      SplitNKeepsOut(s[i + 1..], sep, n - 1, c);
    }
  }

  /** `strings.Join` with a one-character separator. */
  function Join(parts: seq<string>, sep: char): string {
    if parts == [] then ""
    else if |parts| == 1 then parts[0]
    else parts[0] + [sep] + Join(parts[1..], sep)
  }

  lemma SplitFirst(a: string, sep: char, rest: string)
    requires sep !in a
    ensures Split(a + [sep] + rest, sep) == [a] + Split(rest, sep)
  {
    FindPrefix(a, sep, rest);
    assert (a + [sep] + rest)[..|a|] == a;
    assert (a + [sep] + rest)[|a| + 1..] == rest;
  }

  lemma SplitNFirst(a: string, sep: char, rest: string, n: nat)
    requires sep !in a && 2 <= n
    ensures SplitN(a + [sep] + rest, sep, n) == [a] + SplitN(rest, sep, n - 1)
  {
    FindPrefix(a, sep, rest);
    assert (a + [sep] + rest)[..|a|] == a;
    assert (a + [sep] + rest)[|a| + 1..] == rest;
  }

  /** Splitting undoes joining on every non-empty list of separator-free parts. */
  lemma {:induction false} SplitJoin(parts: seq<string>, sep: char)
    requires parts != [] && forall i | 0 <= i < |parts| :: sep !in parts[i]
    ensures Split(Join(parts, sep), sep) == parts
  {
    var first := parts[0];
    if |parts| > 1 {
      var rest := parts[1..];
      SplitJoin(rest, sep);
      SplitFirst(first, sep, Join(rest, sep));
      assert parts == [first] + rest;
    } else {
      assert parts == [first];
    }
  }

  /** Splitting into at most n parts undoes joining n parts, whatever the last one holds. */
  lemma {:induction false} SplitNJoin(parts: seq<string>, sep: char)
    requires parts != [] && forall i | 0 <= i < |parts| - 1 :: sep !in parts[i]
    ensures SplitN(Join(parts, sep), sep, |parts|) == parts
  {
    if |parts| > 1 {
      SplitNJoin(parts[1..], sep);
      SplitNFirst(parts[0], sep, Join(parts[1..], sep), |parts|);
      assert parts == [parts[0]] + parts[1..];
    } else {
      assert parts == [parts[0]];
    }
  }

  lemma SplitNOne(s: string, sep: char, n: nat)
    requires 1 <= n && sep !in s
    ensures SplitN(s, sep, n) == [s]
  {
  }

  /** Fewer parts than the limit come apart whole. */
  lemma {:induction false} SplitNFewer(parts: seq<string>, sep: char, n: nat)
    requires 1 <= |parts| < n && forall i | 0 <= i < |parts| :: sep !in parts[i]
    ensures SplitN(Join(parts, sep), sep, n) == parts
    decreases |parts|
  {
    hide SplitN;
    var first, rest := parts[0], parts[1..];
    if rest == [] {
      SplitNOne(first, sep, n);
    } else {
      SplitNFewer(rest, sep, n - 1);
      SplitNFirst(first, sep, Join(rest, sep), n);
    }
    assert parts == [first] + rest;
  }

  lemma {:induction false} JoinKeepsOut(parts: seq<string>, sep: char, c: char)
    requires c != sep && forall i | 0 <= i < |parts| :: c !in parts[i]
    ensures c !in Join(parts, sep)
  {
    if |parts| > 1 {
      JoinKeepsOut(parts[1..], sep, c);
    }
  }

  /** A joined text begins and ends as its first and last parts do, or with the separator. */
  lemma {:induction false} JoinEnds(parts: seq<string>, sep: char)
    requires |parts| > 1
    ensures var s, last := Join(parts, sep), parts[|parts| - 1];
            && s != ""
            && s[0] == (if parts[0] == "" then sep else parts[0][0])
            && s[|s| - 1] == (if last == "" then sep else last[|last| - 1])
  {
    if |parts| > 2 {
      JoinEnds(parts[1..], sep);
    }
  }

  // ---- 64-bit integers -------------------------------------------------------------------------

  const INT64_MIN: int := -0x8000_0000_0000_0000
  const INT64_MAX: int := 0x7FFF_FFFF_FFFF_FFFF

  predicate InInt64(n: int) {
    INT64_MIN <= n <= INT64_MAX
  }

  type Int64 = n: int | InInt64(n)

  /** Two's-complement wrap-around of a 64-bit result. */
  function Wrap64(n: int): (r: int)
    ensures InInt64(r)
    ensures InInt64(n) <==> r == n
  {
    (n - INT64_MIN) % 0x1_0000_0000_0000_0000 + INT64_MIN
  }

  predicate IsDigit(c: char) {
    '0' <= c <= '9'
  }

  predicate AllDigits(s: string) {
    forall c | c in s :: IsDigit(c)
  }

  function DigitsToNat(s: string): nat
    requires AllDigits(s)
  {
    if s == [] then 0
    else
      assert IsDigit(s[|s| - 1]);
      10 * DigitsToNat(s[..|s| - 1]) + (s[|s| - 1] as int - '0' as int)
  }

  function NatToDigits(n: nat): (s: string)
    ensures s != [] && AllDigits(s) && DigitsToNat(s) == n
  {
    var last := ['0' + (n % 10) as char];
    if n < 10 then last
    else
      var s := NatToDigits(n / 10) + last;
      assert s[..|s| - 1] == NatToDigits(n / 10);
      s
  }

  /** `strconv.ParseInt(s, 10, 64)`. */
  function ParseInt(s: string): (r: Option<int>)
    ensures r.Some? ==> InInt64(r.value)
  {
    var signed := s != [] && (s[0] == '-' || s[0] == '+');
    var digits := if signed then s[1..] else s;
    if digits == [] || !AllDigits(digits) then None
    else
      var n: int := if s[0] == '-' then -(DigitsToNat(digits) as int) else DigitsToNat(digits);
      if InInt64(n) then Some(n) else None
  }

  /** `%d`. */
  function FormatInt(n: int): string {
    if n < 0 then "-" + NatToDigits(-n) else NatToDigits(n)
  }

  lemma OneMoreDigit(s: string, c: char)
    requires AllDigits(s) && IsDigit(c)
    ensures AllDigits(s + [c]) && DigitsToNat(s + [c]) == 10 * DigitsToNat(s) + (c as int - '0' as int)
  {
    assert (s + [c])[..|s|] == s;
  }

  /** Decimal notation with a sign in front at most. */
  lemma Numerals(s: string)
    requires s != "" && AllDigits(s)
    ensures ParseInt(s) == (if DigitsToNat(s) <= INT64_MAX then Some(DigitsToNat(s)) else None)
    ensures ParseInt("+" + s) == ParseInt(s)
    ensures ParseInt("-" + s) == if DigitsToNat(s) <= INT64_MAX + 1 then Some(0 - DigitsToNat(s)) else None
    ensures ParseInt("") == ParseInt("+") == ParseInt("-") == None
  {
    hide DigitsToNat;
    assert IsDigit(s[0]);
    assert ("+" + s)[1..] == s && ("-" + s)[1..] == s;
  }

  lemma ParseFormat(n: int)
    requires InInt64(n)
    ensures ParseInt(FormatInt(n)) == Some(n)
    ensures '=' !in FormatInt(n) && '\n' !in FormatInt(n)
  {
    if n < 0 {
      assert FormatInt(n)[1..] == NatToDigits(-n);
    } else {
      assert IsDigit(FormatInt(n)[0]);
    }
  }
}
