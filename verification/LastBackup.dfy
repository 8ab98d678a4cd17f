/** The `.last-backup` state file: one `server=time=local=nas=hot` line per server. */
module LastBackup {
  import opened Text

  datatype Entry = Entry(time: Int64, local: string, nas: string, hot: string)

  type Entries = map<string, Entry>

  // ---- Reading -----------------------------------------------------------------------------------

  datatype Line = Ignored | Parsed(server: string, entry: Entry)

  /** Lines with fewer than five fields are older formats; anything unreadable is skipped. */
  function ParseLine(raw: string): Line {
    var line := Trim(raw);
    if line == "" then Ignored else FromParts(SplitN(line, '=', 5))
  }

  function FromParts(parts: seq<string>): Line {
    if |parts| < 2 || ParseInt(parts[1]).None? then Ignored
    else
      Parsed(parts[0],
             Entry(ParseInt(parts[1]).value,
                   if |parts| >= 3 then parts[2] else "",
                   if |parts| >= 4 then parts[3] else "",
                   if |parts| >= 5 then parts[4] else ""))
  }

  function Record(m: Entries, line: Line): Entries {
    if line.Ignored? then m else m[line.server := line.entry]
  }

  /** A later line for a server replaces an earlier one. */
  function ReadLines(lines: seq<string>): Entries {
    if lines == [] then map[]
    else Record(ReadLines(lines[..|lines| - 1]), ParseLine(lines[|lines| - 1]))
  }

  /** None: the file cannot be read. */
  function ReadText(text: Option<string>): Entries {
    if text.None? then map[] else ReadLines(Split(text.value, '\n'))
  }

  // ---- Writing -----------------------------------------------------------------------------------

  /** `%s=%d=%s=%s=%s`. */
  function FormatLine(server: string, e: Entry): string {
    Join([server, FormatInt(e.time), e.local, e.nas, e.hot], '=')
  }

  /** A walk of the map: every entry, nothing else. */
  ghost predicate Walks(order: seq<string>, m: Entries) {
    && (forall i | 0 <= i < |order| :: order[i] in m)
    && forall s | s in m :: s in order
  }

  /** The file written when the map is walked in the given order. */
  function WriteText(m: Entries, order: seq<string>): string
    requires forall i | 0 <= i < |order| :: order[i] in m
  {
    if order == [] then ""
    else FormatLine(order[0], m[order[0]]) + "\n" + WriteText(m, order[1..])
  }

  // ---- What a line can hold ------------------------------------------------------------------------

  /** No field may swallow a separator, and trimming the line must not reach into a field. */
  predicate WellFormed(server: string, e: Entry) {
    && '=' !in server && '=' !in e.local && '=' !in e.nas
    && '\n' !in server && '\n' !in e.local && '\n' !in e.nas && '\n' !in e.hot
    && NoLeadingSpace(server)
    && NoTrailingSpace(e.hot)
  }

  ghost predicate AllWellFormed(m: Entries) {
    forall s | s in m :: WellFormed(s, m[s])
  }

  lemma PartsWellFormed(line: string, parts: seq<string>)
    requires Trimmed(line) && 1 <= |parts| <= 5
    requires parts[0] != [] ==> line != [] && parts[0][0] == line[0]
    requires var last := parts[|parts| - 1]; last != [] ==> line != [] && last[|last| - 1] == line[|line| - 1]
    requires forall i | 0 <= i < |parts| :: '\n' !in parts[i]
    requires forall i | 0 <= i < |parts| && i < 4 :: '=' !in parts[i]
    ensures var r := FromParts(parts); r.Parsed? ==> WellFormed(r.server, r.entry)
  {
  }

  lemma LineWellFormed(raw: string)
    requires '\n' !in raw
    ensures var r := ParseLine(raw); r.Parsed? ==> WellFormed(r.server, r.entry)
  {
    hide SplitN, FromParts, WellFormed;
    var line := Trim(raw);
    TrimKeepsOut(raw, '\n');
    SplitNEnds(line, '=', 5);
    SplitNKeepsOut(line, '=', 5, '\n');
    PartsWellFormed(line, SplitN(line, '=', 5));
  }

  lemma {:induction false} LinesWellFormed(lines: seq<string>)
    requires forall i | 0 <= i < |lines| :: '\n' !in lines[i]
    ensures AllWellFormed(ReadLines(lines))
  {
    if lines != [] {
      LinesWellFormed(lines[..|lines| - 1]);
      LineWellFormed(lines[|lines| - 1]);
    }
  }

  /** Whatever the reader returns, from any text at all, can be written again. */
  lemma ReadIsWellFormed(text: Option<string>)
    ensures AllWellFormed(ReadText(text))
  {
    if text.Some? {
      LinesWellFormed(Split(text.value, '\n'));
    }
  }

  // ---- Round trip ----------------------------------------------------------------------------------

  lemma FormatShape(server: string, e: Entry)
    requires WellFormed(server, e)
    ensures '\n' !in FormatLine(server, e) && Trimmed(FormatLine(server, e)) && FormatLine(server, e) != ""
  {
    ParseFormat(e.time);
    JoinKeepsOut([server, FormatInt(e.time), e.local, e.nas, e.hot], '=', '\n');
    JoinEnds([server, FormatInt(e.time), e.local, e.nas, e.hot], '=');
  }

  lemma FormatParses(server: string, e: Entry)
    requires WellFormed(server, e)
    ensures ParseLine(FormatLine(server, e)) == Parsed(server, e)
  {
    FormatShape(server, e);
    ParseFormat(e.time);
    SplitNJoin([server, FormatInt(e.time), e.local, e.nas, e.hot], '=');
  }

  /** What a line says: its fields in order, those the older formats lack being empty. */
  lemma LineMeans(server: string, e: Entry)
    requires '=' !in server && '=' !in e.local && '=' !in e.nas && NoLeadingSpace(server)
    ensures var short := server + "=" + FormatInt(e.time);
            && ParseLine(short) == Parsed(server, Entry(e.time, "", "", ""))
            && (NoTrailingSpace(e.local) ==>
                  ParseLine(short + "=" + e.local) == Parsed(server, Entry(e.time, e.local, "", "")))
            && (NoTrailingSpace(e.nas) ==>
                  ParseLine(short + "=" + e.local + "=" + e.nas) == Parsed(server, Entry(e.time, e.local, e.nas, "")))
            && (NoTrailingSpace(e.hot) ==>
                  && FormatLine(server, e) == short + "=" + e.local + "=" + e.nas + "=" + e.hot
                  && ParseLine(FormatLine(server, e)) == Parsed(server, e))
  {
    hide ParseLine, FormatInt, FormatLine;
    var t := FormatInt(e.time);
    FormatHasNoSpace(e.time);
    ParseFormat(e.time);
    PartsRead([server, t]);
    PartsRead([server, t, e.local]);
    PartsRead([server, t, e.local, e.nas]);
    PartsRead([server, t, e.local, e.nas, e.hot]);
    JoinedFields(server, t, e);
  }

  lemma FormatHasNoSpace(n: int)
    ensures NoTrailingSpace(FormatInt(n)) && FormatInt(n) != ""
  {
    var digits := NatToDigits(if n < 0 then -n else n);
    assert digits[|digits| - 1] in digits;
  }

  /** Two to five fields without padding at the ends are read as they are. */
  lemma PartsRead(parts: seq<string>)
    requires 2 <= |parts| <= 5 && forall i | 0 <= i < |parts| && i < 4 :: '=' !in parts[i]
    requires NoLeadingSpace(parts[0])
    ensures NoTrailingSpace(parts[|parts| - 1]) ==> ParseLine(Join(parts, '=')) == FromParts(parts)
  {
    hide SplitN, Join, FromParts;
    JoinEnds(parts, '=');
    if |parts| == 5 {
      SplitNJoin(parts, '=');
    } else {
      SplitNFewer(parts, '=', 5);
    }
  }

  lemma JoinedFields(server: string, t: string, e: Entry)
    ensures Join([server, t], '=') == server + "=" + t
    ensures Join([server, t, e.local], '=') == server + "=" + t + "=" + e.local
    ensures Join([server, t, e.local, e.nas], '=') == server + "=" + t + "=" + e.local + "=" + e.nas
    ensures Join([server, t, e.local, e.nas, e.hot], '=')
         == server + "=" + t + "=" + e.local + "=" + e.nas + "=" + e.hot
    ensures t == FormatInt(e.time) ==>
              FormatLine(server, e) == Join([server, t, e.local, e.nas, e.hot], '=')
  {
    hide FormatInt;
    JoinMore(server, [t]);
    JoinMore(server, [t, e.local]);
    JoinMore(t, [e.local]);
    JoinMore(server, [t, e.local, e.nas]);
    JoinMore(t, [e.local, e.nas]);
    JoinMore(e.local, [e.nas]);
    JoinMore(server, [t, e.local, e.nas, e.hot]);
    JoinMore(t, [e.local, e.nas, e.hot]);
    JoinMore(e.local, [e.nas, e.hot]);
    JoinMore(e.nas, [e.hot]);
  }

  lemma JoinMore(first: string, rest: seq<string>)
    requires rest != []
    ensures Join([first] + rest, '=') == first + "=" + Join(rest, '=')
  {
    assert ([first] + rest)[1..] == rest;
  }

  predicate IsFor(line: string, server: string) {
    ParseLine(line).Parsed? && ParseLine(line).server == server
  }

  /** Of several lines for one server the last counts, wherever it stands among the others. */
  lemma {:induction false} LastLineWins(lines: seq<string>, i: nat, server: string)
    requires i < |lines| && IsFor(lines[i], server)
    requires forall j | i < j < |lines| :: !IsFor(lines[j], server)
    ensures server in ReadLines(lines) && ReadLines(lines)[server] == ParseLine(lines[i]).entry
  {
    hide ParseLine;
    var n := |lines| - 1;
    if i < n {
      LastLineWins(lines[..n], i, server);
      assert !IsFor(lines[n], server);
    }
  }

  /** A server without a line has no entry. */
  lemma {:induction false} OnlyLinesCount(lines: seq<string>, server: string)
    requires forall i | 0 <= i < |lines| :: !IsFor(lines[i], server)
    ensures server !in ReadLines(lines)
  {
    hide ParseLine;
    if lines != [] {
      var n := |lines| - 1;
      OnlyLinesCount(lines[..n], server);
      assert !IsFor(lines[n], server);
    }
  }

  /** The lines of a written file: one for each name walked. */
  ghost predicate LinesOf(lines: seq<string>, m: Entries, order: seq<string>)
    requires forall i | 0 <= i < |order| :: order[i] in m
  {
    && |lines| == |order|
    && forall i | 0 <= i < |order| :: lines[i] == FormatLine(order[i], m[order[i]])
  }

  lemma {:induction false} WrittenLines(m: Entries, order: seq<string>) returns (lines: seq<string>)
    requires AllWellFormed(m) && forall i | 0 <= i < |order| :: order[i] in m
    ensures LinesOf(lines, m, order)
    ensures Split(WriteText(m, order), '\n') == lines + [""]
  {
    if order == [] {
      lines := [];
    } else {
      var name, rest := order[0], order[1..];
      assert name in m;
      var first := FormatLine(name, m[name]);
      var more := WrittenLines(m, rest);
      FormatShape(name, m[name]);
      SplitFirst(first, '\n', WriteText(m, rest));
      lines := [first] + more;
      assert lines + [""] == [first] + (more + [""]);
    }
  }

  lemma ReadOneMore(lines: seq<string>, i: nat)
    requires i < |lines|
    ensures ReadLines(lines[..i + 1]) == Record(ReadLines(lines[..i]), ParseLine(lines[i]))
  {
    assert lines[..i + 1][..i] == lines[..i];
  }

  ghost function Restrict(m: Entries, order: seq<string>): Entries
    requires forall i | 0 <= i < |order| :: order[i] in m
  {
    if order == [] then map[]
    else var s := order[|order| - 1]; Restrict(m, order[..|order| - 1])[s := m[s]]
  }

  lemma {:induction false} ReadWritten(m: Entries, order: seq<string>, lines: seq<string>, n: nat)
    requires AllWellFormed(m) && forall i | 0 <= i < |order| :: order[i] in m
    requires LinesOf(lines, m, order) && n <= |order|
    ensures ReadLines(lines[..n]) == Restrict(m, order[..n])
  {
    hide ParseLine, FormatLine, WellFormed;
    if n != 0 {
      var name := order[n - 1];
      ReadWritten(m, order, lines, n - 1);
      ReadOneMore(lines, n - 1);
      FormatParses(name, m[name]);
      assert order[..n][..n - 1] == order[..n - 1];
    }
  }

  lemma {:induction false} RestrictToAll(m: Entries, order: seq<string>)
    requires forall i | 0 <= i < |order| :: order[i] in m
    ensures forall s :: s in Restrict(m, order) <==> s in order
    ensures forall s | s in order :: Restrict(m, order)[s] == m[s]
  {
    if order != [] {
      var n := |order| - 1;
      RestrictToAll(m, order[..n]);
      assert order == order[..n] + [order[n]];
    }
  }

  lemma BlankEnd(lines: seq<string>)
    ensures ReadLines(lines + [""]) == ReadLines(lines)
  {
    assert (lines + [""])[..|lines|] == lines;
    assert ParseLine("") == Ignored;
  }

  lemma RestrictAll(m: Entries, order: seq<string>)
    requires Walks(order, m)
    ensures Restrict(m, order) == m
  {
    RestrictToAll(m, order);
  }

  lemma ReadAllLines(m: Entries, order: seq<string>, lines: seq<string>)
    requires AllWellFormed(m) && (forall i | 0 <= i < |order| :: order[i] in m) && LinesOf(lines, m, order)
    ensures ReadLines(lines) == Restrict(m, order)
  {
    ReadWritten(m, order, lines, |order|);
    assert lines[..|order|] == lines;
    assert order[..|order|] == order;
  }

  /** Writing a readable map in any order and reading it back changes nothing. */
  lemma WriteReadRoundTrip(m: Entries, order: seq<string>)
    requires AllWellFormed(m)
    requires Walks(order, m)
    ensures ReadText(Some(WriteText(m, order))) == m
  {
    var lines := WrittenLines(m, order);
    BlankEnd(lines);
    ReadAllLines(m, order, lines);
    RestrictAll(m, order);
  }

  /**
   * Updating one server in a file with any earlier text reads back as exactly that update, in every
   * walking order, if and only if the new entry is well formed.
   */
  lemma UpdateReadsBack(text: Option<string>, server: string, e: Entry, order: seq<string>)
    requires Walks(order, ReadText(text)[server := e])
    ensures WellFormed(server, e)
       <==> ReadText(Some(WriteText(ReadText(text)[server := e], order))) == ReadText(text)[server := e]
  {
    var m := ReadText(text)[server := e];
    ReadIsWellFormed(text);
    if WellFormed(server, e) {
      WriteReadRoundTrip(m, order);
    } else {
      ReadIsWellFormed(Some(WriteText(m, order)));
      assert server in m && m[server] == e;
    }
  }

  // ---- The file ------------------------------------------------------------------------------------

  lemma {:induction false} WriteOneMore(m: Entries, order: seq<string>, s: string)
    requires s in m && forall t | t in order :: t in m
    ensures WriteText(m, order + [s]) == WriteText(m, order) + (FormatLine(s, m[s]) + "\n")
  {
    var line := FormatLine(s, m[s]) + "\n";
    if order == [] {
      assert WriteText(m, []) == "" && [s][1..] == [];
    } else {
      WriteOneMore(m, order[1..], s);
      assert (order + [s])[1..] == order[1..] + [s];
      var first := FormatLine(order[0], m[order[0]]) + "\n";
      assert first + (WriteText(m, order[1..]) + line) == first + WriteText(m, order[1..]) + line;
    }
  }

  /** Go walks a map in an arbitrary order: any key not yet written may come next. */
  method WriteEntries(m: Entries) returns (out: string, ghost order: seq<string>)
    ensures Walks(order, m)
    ensures out == WriteText(m, order)
  {
    out, order := "", [];
    var left := m.Keys;
    while left != {}
      invariant left <= m.Keys
      invariant forall i | 0 <= i < |order| :: order[i] in m
      invariant forall s | s in m :: s in left || s in order
      invariant out == WriteText(m, order)
    {
      var name :| name in left;
      WriteOneMore(m, order, name);
      out := out + (FormatLine(name, m[name]) + "\n");
      order := order + [name];
      left := left - {name};
    }
  }

  class StateFile {
    var text: Option<string>

    method ReadLastSnapshots() returns (m: Entries)
      ensures m == ReadText(text)
    {
      m := map[];
      if text.None? {
        return;
      }
      var lines := Split(text.value, '\n');
      for i := 0 to |lines|
        invariant m == ReadLines(lines[..i])
      {
        var line := Trim(lines[i]);
        ReadOneMore(lines, i);
        if line == "" {
          continue;
        }
        var parts := SplitN(line, '=', 5);
        if |parts| < 2 {
          continue;
        }
        var ts := ParseInt(parts[1]);
        if ts.None? {
          continue;
        }
        var entry := Entry(ts.value, "", "", "");
        if |parts| >= 3 {
          entry := entry.(local := parts[2]);
        }
        if |parts| >= 4 {
          entry := entry.(nas := parts[3]);
        }
        if |parts| >= 5 {
          entry := entry.(hot := parts[4]);
        }
        m := m[parts[0] := entry];
      }
      assert lines[..|lines|] == lines;
    }

    /**
     * Rewrites the whole file, walking the map in an arbitrary order. `written` says whether the
     * temporary file was created, written, synced, closed and renamed over the old one.
     */
    method WriteLastSnapshotAt(server: string, e: Entry, written: bool)
      modifies this
      ensures !written ==> text == old(text)
      ensures written ==>
        (WellFormed(server, e) <==> ReadText(text) == ReadText(old(text))[server := e])
      ensures written ==>
        var m := ReadText(old(text))[server := e];
        exists order :: Walks(order, m) && text == Some(WriteText(m, order))
      ensures written ==> AllWellFormed(ReadText(text))
    {
      var m := ReadLastSnapshots();
      m := m[server := e];
      if !written {
        return;
      }
      var out, order := WriteEntries(m);
      UpdateReadsBack(text, server, e, order);
      text := Some(out);
      ReadIsWellFormed(text);
    }
  }
}
