/** Quoting for the remote shell, and the reading a POSIX shell gives it. */
module Shell {
  import opened Text

  // ---- What the program builds -----------------------------------------------------------------

  /** `strings.ReplaceAll(s, "'", "'\\''")`. */
  function EscapeQuotes(s: string): string {
    if s == [] then ""
    else (if s[0] == '\'' then "'\\''" else [s[0]]) + EscapeQuotes(s[1..])
  }

  function ShellQuote(s: string): string {
    "'" + EscapeQuotes(s) + "'"
  }

  function NasReadyCommand(destRoot: string): string {
    "test -f " + ShellQuote(destRoot + "/.nas-ready")
  }

  function NasMkdirCommand(path: string): string {
    "mkdir -p " + ShellQuote(path)
  }

  function NasRemoveDirCommand(path: string): string {
    "rm -rf -- " + ShellQuote(path)
  }

  function NasRenameCommand(src: string, dst: string): string {
    "mv -- " + ShellQuote(src) + " " + ShellQuote(dst)
  }

  // ---- What the shell reads: sections 2.2.1 and 2.2.2 of the Shell Command Language chapter ------

  /** Characters that mean something else than themselves, or may, when unquoted. */
  predicate Special(c: char) {
    || c == '|' || c == '&' || c == ';' || c == '<' || c == '>' || c == '(' || c == ')' || c == '$' || c == '`'
    || c == '"' || c == '*' || c == '?' || c == '[' || c == '#' || c == '~' || c == '=' || c == '%' || c == '\n'
  }

  predicate Blank(c: char) {
    c == ' ' || c == '\t'
  }

  function Extend(word: Option<string>, c: char): Option<string> {
    Some((if word.Some? then word.value else "") + [c])
  }

  /** Puts a finished word in front of the words that follow it. */
  function Finish(word: Option<string>, rest: Option<seq<string>>): Option<seq<string>> {
    if word.None? || rest.None? then rest else Some([word.value] + rest.value)
  }

  /**
   * The words of one simple command, from a position in the text. `word` is the word begun so far;
   * `quoted` says that a single quote is open. None: the text is not one simple command of plainly
   * quoted words (an open quote, or an unquoted special character).
   */
  function LexFrom(word: Option<string>, quoted: bool, s: string): Option<seq<string>>
    decreases |s|
  {
    if s == [] then
      if quoted then None else Finish(word, Some([]))
    else if quoted then
      if s[0] == '\'' then LexFrom(word, false, s[1..])
      else LexFrom(Extend(word, s[0]), true, s[1..])
    else if s[0] == '\'' then
      LexFrom(Some(if word.Some? then word.value else ""), true, s[1..])
    else if s[0] == '\\' then
      if |s| == 1 then None
      else if s[1] == '\n' then LexFrom(word, false, s[2..])
      else LexFrom(Extend(word, s[1]), false, s[2..])
    else if Blank(s[0]) then Finish(word, LexFrom(None, false, s[1..]))
    else if Special(s[0]) then None
    else LexFrom(Extend(word, s[0]), false, s[1..])
  }

  function Lex(s: string): Option<seq<string>> {
    LexFrom(None, false, s)
  }

  // ---- Quoting inverts ---------------------------------------------------------------------------

  /** The four characters that stand for one quote: close, escaped quote, open again. */
  lemma LexQuote(w: string, more: string)
    ensures LexFrom(Some(w), true, ['\'', '\\', '\'', '\''] + more) == LexFrom(Some(w + ['\'']), true, more)
  {
    var reopened := ['\''] + more;
    var escaped := ['\\', '\''] + reopened;
    assert ['\'', '\\', '\'', '\''] + more == ['\''] + escaped;
    assert escaped[2..] == reopened;
    assert LexFrom(Some(w), false, escaped) == LexFrom(Some(w + ['\'']), false, reopened);
  }

  lemma {:induction false} LexEscaped(w: string, s: string, rest: string)
    ensures LexFrom(Some(w), true, EscapeQuotes(s) + "'" + rest) == LexFrom(Some(w + s), false, rest)
    decreases |s|
  {
    if s == [] {
      assert EscapeQuotes(s) + "'" + rest == ['\''] + rest;
      assert w + s == w;
    } else {
      var more := EscapeQuotes(s[1..]) + "'" + rest;
      LexEscaped(w + [s[0]], s[1..], rest);
      assert w + [s[0]] + s[1..] == w + s;
      if s[0] == '\'' {
        LexQuote(w, more);
        assert EscapeQuotes(s) + "'" + rest == ['\'', '\\', '\'', '\''] + more;
      } else {
        assert EscapeQuotes(s) + "'" + rest == [s[0]] + more;
      }
    }
  }

  /** Quoted text adds exactly itself to the word being read, whatever comes before or after it. */
  lemma QuoteInverts(word: Option<string>, s: string, rest: string)
    ensures LexFrom(word, false, ShellQuote(s) + rest)
         == LexFrom(Some((if word.Some? then word.value else "") + s), false, rest)
  {
    LexEscaped(if word.Some? then word.value else "", s, rest);
    assert ShellQuote(s) + rest == ['\''] + (EscapeQuotes(s) + "'" + rest);
  }

  lemma QuoteIsOneWord(s: string)
    ensures Lex(ShellQuote(s)) == Some([s])
  {
    QuoteInverts(None, s, "");
    assert ShellQuote(s) + "" == ShellQuote(s) && "" + s == s && [s] + [] == [s];
  }

  // ---- Whole commands ----------------------------------------------------------------------------

  predicate PlainText(s: string) {
    s != [] && forall i | 0 <= i < |s| :: !Special(s[i]) && !Blank(s[i]) && s[i] != '\'' && s[i] != '\\'
  }

  lemma {:induction false} LexPlain(word: Option<string>, s: string, rest: string)
    requires PlainText(s)
    ensures LexFrom(word, false, s + rest)
         == LexFrom(Some((if word.Some? then word.value else "") + s), false, rest)
    decreases |s|
  {
    assert s + rest == [s[0]] + (s[1..] + rest);
    var w := Extend(word, s[0]);
    if |s| == 1 {
      assert s[1..] + rest == rest;
    } else {
      LexPlain(w, s[1..], rest);
      assert w.value + s[1..] == (if word.Some? then word.value else "") + s;
    }
  }

  lemma LexWord(w: string, rest: string)
    requires PlainText(w)
    ensures Lex(w + " " + rest) == Finish(Some(w), Lex(rest))
  {
    var tail := [' '] + rest;
    LexPlain(None, w, tail);
    assert w + " " + rest == w + tail && "" + w == w && tail[1..] == rest;
  }

  lemma LexQuotedWord(s: string, rest: string)
    ensures Lex(ShellQuote(s) + " " + rest) == Finish(Some(s), Lex(rest))
  {
    var tail := [' '] + rest;
    QuoteInverts(None, s, tail);
    assert ShellQuote(s) + " " + rest == ShellQuote(s) + tail && "" + s == s && tail[1..] == rest;
  }

  /** `first opt 'path'`, the shape of three of the commands below. */
  lemma LexThree(first: string, opt: string, path: string)
    requires PlainText(first) && PlainText(opt)
    ensures Lex(first + " " + (opt + " " + ShellQuote(path))) == Some([first, opt, path])
  {
    LexWord(first, opt + " " + ShellQuote(path));
    LexWord(opt, ShellQuote(path));
    QuoteIsOneWord(path);
    assert [first] + ([opt] + [path]) == [first, opt, path];
  }

  lemma ReadyCommandLexes(destRoot: string)
    ensures Lex(NasReadyCommand(destRoot)) == Some(["test", "-f", destRoot + "/.nas-ready"])
  {
    var q := ShellQuote(destRoot + "/.nas-ready");
    LexThree("test", "-f", destRoot + "/.nas-ready");
    assert "test -f " + q == "test" + " " + ("-f" + " " + q);
  }

  lemma MkdirCommandLexes(path: string)
    ensures Lex(NasMkdirCommand(path)) == Some(["mkdir", "-p", path])
  {
    LexThree("mkdir", "-p", path);
    assert NasMkdirCommand(path) == "mkdir" + " " + ("-p" + " " + ShellQuote(path));
  }

  lemma RemoveDirCommandLexes(path: string)
    ensures Lex(NasRemoveDirCommand(path)) == Some(["rm", "-rf", "--", path])
  {
    var rest := "-rf" + " " + ("--" + " " + ShellQuote(path));
    LexThree("-rf", "--", path);
    LexWord("rm", rest);
    assert ["rm"] + ["-rf", "--", path] == ["rm", "-rf", "--", path];
    assert NasRemoveDirCommand(path) == "rm" + " " + rest;
  }

  lemma RenameCommandLexes(src: string, dst: string)
    ensures Lex(NasRenameCommand(src, dst)) == Some(["mv", "--", src, dst])
  {
    var last := ShellQuote(dst);
    var both := ShellQuote(src) + " " + last;
    QuoteIsOneWord(dst);
    LexQuotedWord(src, last);
    LexWord("--", both);
    LexWord("mv", "--" + " " + both);
    assert ["mv"] + (["--"] + ([src] + [dst])) == ["mv", "--", src, dst];
    assert "mv -- " + ShellQuote(src) + " " + last == "mv" + " " + ("--" + " " + both);
  }
}
