/** The `excludes` setting: the list printed by `config get` and read back by `config set`. */
module Excludes {
  import opened Text

  type Patterns = Option<seq<string>>

  predicate SameLetter(c: char, lower: char) {
    c == lower || ('A' <= c <= 'Z' && c as int + 32 == lower as int)
  }

  /** `strings.EqualFold` against a lower-case word whose letters have no case variants outside ASCII. */
  predicate EqualFold(s: string, word: string) {
    && |s| == |word|
    && (s != [] ==> SameLetter(s[0], word[0]) && EqualFold(s[1..], word[1..]))
  }

  /** The words that mean something other than a pattern list. */
  predicate Keyword(s: string) {
    EqualFold(s, "inherit") || EqualFold(s, "default") || EqualFold(s, "none")
  }

  /** Each part trimmed, empty ones dropped. */
  function Cleaned(parts: seq<string>): seq<string> {
    if parts == [] then []
    else
      var p := Trim(parts[|parts| - 1]);
      Cleaned(parts[..|parts| - 1]) + (if p == "" then [] else [p])
  }

  lemma CleanedStep(parts: seq<string>, i: nat)
    requires i < |parts|
    ensures var p := Trim(parts[i]);
            Cleaned(parts[..i + 1]) == Cleaned(parts[..i]) + (if p == "" then [] else [p])
  {
    assert parts[..i + 1][..i] == parts[..i];
  }

  function ParseSpec(val: string): Patterns {
    var trimmed := Trim(val);
    if EqualFold(trimmed, "inherit") || EqualFold(trimmed, "default") then None
    else if trimmed == "" || EqualFold(trimmed, "none") then Some([])
    else Some(Cleaned(Split(val, ',')))
  }

  method ParseExcludesValue(val: string) returns (res: Patterns)
    ensures res == ParseSpec(val)
  {
    var trimmed := Trim(val);
    if EqualFold(trimmed, "inherit") || EqualFold(trimmed, "default") {
      return None;
    }
    if trimmed == "" || EqualFold(trimmed, "none") {
      return Some([]);
    }
    var parts := Split(val, ',');
    var out := [];
    for i := 0 to |parts|
      invariant out == Cleaned(parts[..i])
    {
      CleanedStep(parts, i);
      var p := Trim(parts[i]);
      if p != "" {
        out := out + [p];
      }
    }
    assert parts[..|parts|] == parts;
    return Some(out);
  }

  /** `whenUnset` is "inherit" for a server and "default" for the global section. */
  function Print(excludes: Patterns, whenUnset: string): string {
    if excludes.None? then whenUnset
    else if excludes.value == [] then "none"
    else Join(excludes.value, ',')
  }

  lemma PrintMeans(p: string, more: seq<string>, whenUnset: string)
    ensures Print(None, whenUnset) == whenUnset && Print(Some([]), whenUnset) == "none"
    ensures Print(Some([p]), whenUnset) == p
    ensures more != [] ==> Print(Some([p] + more), whenUnset) == p + "," + Print(Some(more), whenUnset)
  {
    assert ([p] + more)[1..] == more;
  }

  predicate Plain(p: string) {
    Trimmed(p) && p != "" && ',' !in p
  }

  predicate AllPlain(parts: seq<string>) {
    forall i | 0 <= i < |parts| :: Plain(parts[i])
  }

  /** A list the setting can hold: plain patterns, and not one pattern spelling a keyword. */
  predicate Printable(patterns: seq<string>) {
    && AllPlain(patterns)
    && !(|patterns| == 1 && Keyword(patterns[0]))
  }

  lemma {:induction false} CleanedPlain(parts: seq<string>)
    requires forall i | 0 <= i < |parts| :: ',' !in parts[i]
    ensures AllPlain(Cleaned(parts))
  {
    if parts != [] {
      var n := |parts| - 1;
      CleanedPlain(parts[..n]);
      TrimKeepsOut(parts[n], ',');
    }
  }

  lemma {:induction false} PlainIsClean(parts: seq<string>)
    requires AllPlain(parts)
    ensures Cleaned(parts) == parts
  {
    if parts != [] {
      var n := |parts| - 1;
      PlainIsClean(parts[..n]);
      assert Plain(parts[n]);
      assert parts[..n] + [parts[n]] == parts;
    }
  }

  lemma {:induction false} JoinedShape(parts: seq<string>)
    requires parts != [] && AllPlain(parts)
    ensures Trimmed(Join(parts, ',')) && Join(parts, ',') != ""
    ensures ',' in Join(parts, ',') <==> |parts| > 1
  {
    assert Plain(parts[0]);
    if |parts| > 1 {
      var rest := Join(parts[1..], ',');
      JoinedShape(parts[1..]);
      assert Join(parts, ',') == parts[0] + [','] + rest;
      assert Join(parts, ',')[|parts[0]|] == ',';
    }
  }

  lemma {:induction false} FoldKeepsCommas(s: string, word: string)
    requires EqualFold(s, word) && ',' !in word
    ensures ',' !in s
  {
    if s != [] {
      FoldKeepsCommas(s[1..], word[1..]);
    }
  }

  lemma KeywordHasNoComma(s: string)
    requires Keyword(s)
    ensures ',' !in s
  {
    if EqualFold(s, "inherit") {
      FoldKeepsCommas(s, "inherit");
    } else if EqualFold(s, "default") {
      FoldKeepsCommas(s, "default");
    } else {
      FoldKeepsCommas(s, "none");
    }
  }

  lemma {:induction false} FoldSelf(s: string)
    ensures EqualFold(s, s)
  {
    if s != [] {
      FoldSelf(s[1..]);
    }
  }

  /** A trimmed value that spells no keyword and is not empty is read as a list. */
  lemma ListReads(s: string)
    requires Trimmed(s) && s != ""
    ensures !Keyword(s) ==> ParseSpec(s) == Some(Cleaned(Split(s, ',')))
    ensures Keyword(s) ==> ParseSpec(s).None? || ParseSpec(s) == Some([])
  {
  }

  lemma JoinReadsBack(patterns: seq<string>)
    requires patterns != [] && AllPlain(patterns)
    ensures ParseSpec(Join(patterns, ',')) == Some(patterns) <==> !(|patterns| == 1 && Keyword(patterns[0]))
  {
    var s := Join(patterns, ',');
    JoinedShape(patterns);
    ListReads(s);
    if Keyword(s) {
      KeywordHasNoComma(s);
      assert |patterns| == 1;
    } else {
      SplitJoin(patterns, ',');
      PlainIsClean(patterns);
    }
  }

  lemma ParsedIsPlain(val: string)
    ensures ParseSpec(val).Some? ==> AllPlain(ParseSpec(val).value)
  {
    CleanedPlain(Split(val, ','));
  }

  lemma UnsetReads()
    ensures ParseSpec("inherit") == None && ParseSpec("default") == None
  {
    FoldSelf("inherit");
    FoldSelf("default");
    assert Trimmed("inherit") && Trimmed("default");
  }

  lemma NoneReads(s: string)
    requires Trimmed(s) && EqualFold(s, "none")
    ensures ParseSpec(s) == Some([])
  {
  }

  lemma ListRoundTrip(patterns: seq<string>)
    requires patterns != []
    ensures ParseSpec(Join(patterns, ',')) == Some(patterns) <==> Printable(patterns)
  {
    if AllPlain(patterns) {
      JoinReadsBack(patterns);
    } else {
      ParsedIsPlain(Join(patterns, ','));
    }
  }

  // ---- What a value means --------------------------------------------------------------------------

  function ToLower(s: string): (r: string)
    ensures |r| == |s|
  {
    seq(|s|, i requires 0 <= i < |s| => if 'A' <= s[i] <= 'Z' then (s[i] as int + 32) as char else s[i])
  }

  predicate Blank(s: string) {
    forall i | 0 <= i < |s| :: IsSpace(s[i])
  }

  lemma {:induction false} FoldIsLower(s: string, word: string)
    ensures ToLower(s) == word ==> EqualFold(s, word)
  {
    if ToLower(s) == word && s != "" {
      assert ToLower(s)[0] == word[0];
      assert ToLower(s[1..]) == word[1..];
      FoldIsLower(s[1..], word[1..]);
    }
  }

  /** The keywords count in any case and with any padding; nothing at all is the empty list. */
  lemma KeywordsRead(lead: string, word: string, tail: string)
    requires Blank(lead) && Blank(tail)
    ensures ToLower(word) == "inherit" || ToLower(word) == "default" ==> ParseSpec(lead + (word + tail)) == None
    ensures word == "" || ToLower(word) == "none" ==> ParseSpec(lead + (word + tail)) == Some([])
  {
    var low := ToLower(word);
    if word == "" || low == "inherit" || low == "default" || low == "none" {
      if word != "" {
        assert low[0] in {'i', 'd', 'n'} && low[|word| - 1] in {'t', 'e'};
      }
      TrimPads(lead, word, tail);
      FoldIsLower(word, low);
      NoneIsNotUnset(word);
    }
  }

  lemma NoneIsNotUnset(word: string)
    ensures |word| < 7 ==> !EqualFold(word, "inherit") && !EqualFold(word, "default")
  {
  }

  /** Padding around the patterns of a list is not part of them. */
  lemma PaddedReads(patterns: seq<string>, leads: seq<string>, tails: seq<string>)
    requires |patterns| == |leads| == |tails| && patterns != [] && Printable(patterns)
    requires forall i | 0 <= i < |patterns| :: Blank(leads[i]) && Blank(tails[i])
    ensures var padded := seq(|patterns|, i requires 0 <= i < |patterns| => leads[i] + (patterns[i] + tails[i]));
            ParseSpec(Join(padded, ',')) == Some(patterns)
  {
    var padded := seq(|patterns|, i requires 0 <= i < |patterns| => leads[i] + (patterns[i] + tails[i]));
    forall i | 0 <= i < |patterns|
      ensures ',' !in padded[i] && Trim(padded[i]) == patterns[i]
    {
      assert Plain(patterns[i]) && Blank(leads[i]) && Blank(tails[i]);
      TrimPads(leads[i], patterns[i], tails[i]);
    }
    CleanedTrims(padded, patterns);
    SplitJoin(padded, ',');
    var val := Join(padded, ',');
    if |padded| > 1 {
      assert val[|padded[0]|] == ',';
      TrimKeeps(val, ',');
      if Keyword(Trim(val)) {
        KeywordHasNoComma(Trim(val));
      }
    }
  }

  lemma {:induction false} CleanedTrims(parts: seq<string>, patterns: seq<string>)
    requires |parts| == |patterns| && forall i | 0 <= i < |parts| :: Trim(parts[i]) == patterns[i] != ""
    ensures Cleaned(parts) == patterns
  {
    hide Trim;
    if parts != [] {
      var n := |parts| - 1;
      CleanedTrims(parts[..n], patterns[..n]);
      assert patterns == patterns[..n] + [patterns[n]];
    }
  }

  lemma BlankTrims(blank: string)
    requires Blank(blank)
    ensures Trim(blank) == ""
  {
    TrimPads(blank, "", "");
    assert blank + ("" + "") == blank;
  }

  /** Blank parts count for nothing. */
  lemma {:induction false} BlankPartDropped(a: seq<string>, blank: string, b: seq<string>)
    requires Blank(blank)
    ensures Cleaned(a + [blank] + b) == Cleaned(a + b)
  {
    hide Trim, Blank;
    if b == [] {
      BlankTrims(blank);
      assert a + [] == a && a + [blank] + [] == a + [blank];
      assert (a + [blank])[..|a|] == a;
    } else {
      var n := |b| - 1;
      BlankPartDropped(a, blank, b[..n]);
      assert (a + [blank] + b)[..|a| + 1 + n] == a + [blank] + b[..n];
      assert (a + b)[..|a| + n] == a + b[..n];
    }
  }

  /** The printed form reads back as the same setting, for exactly the settings described. */
  lemma ExcludesRoundTrip(excludes: Patterns, whenUnset: string)
    requires whenUnset == "inherit" || whenUnset == "default"
    ensures ParseSpec(Print(excludes, whenUnset)) == excludes
       <==> (excludes.None? || Printable(excludes.value))
  {
    if excludes.None? {
      UnsetReads();
    } else if excludes.value == [] {
      FoldSelf("none");
      NoneReads("none");
    } else {
      ListRoundTrip(excludes.value);
    }
  }

  /** Whatever is read can be printed and read again, unless it came out as one keyword. */
  lemma ParsedIsPrintable(val: string)
    ensures var r := ParseSpec(val);
            r.None? || Printable(r.value) || (|r.value| == 1 && Keyword(r.value[0]) && ',' in val)
  {
    CleanedPlain(Split(val, ','));
    if ',' !in val {
      assert Split(val, ',') == [val];
      assert [val][..0] == [];
    }
  }
}
