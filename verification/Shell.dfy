/** Commands handed to a shell (internal/dmg/dmg.go): `ShellQuote`, `dmgLine` and `WithACLFile`, read back the
    way sections 2.2.1, 2.2.2 and 2.3 of POSIX.1-2017 Shell Command Language say. */
module Shell {
  import opened Text

  datatype Token = Word(text: string) | Operator(text: string)

  /** Where the reader is: outside quotes, or between single quotes. */
  datatype Mode = Unquoted | Quoted

  /** Characters that stand for themselves outside quotes. The others, quotes, blanks and the operators
      below aside, are left out: what a shell makes of them depends on more than quoting. */
  predicate IsOrdinary(c: char) {
    'a' <= c <= 'z' || 'A' <= c <= 'Z' || '0' <= c <= '9' || c == '-' || c == '.' || c == '/' || c == '_' || c == ':'
    || c == ','
  }

  function Flush(cur: Option<string>): seq<Token> { if cur.Some? then [Word(cur.value)] else [] }

  function Started(cur: Option<string>): string { if cur.Some? then cur.value else "" }

  function Prepend(front: seq<Token>, rest: Option<seq<Token>>): Option<seq<Token>> {
    if rest.Some? then Some(front + rest.value) else None
  }

  /** The tokens of a command line, cur being the word begun before s; None where the model has nothing to
      say, such as an unclosed quote or an expansion. */
  function Tokens(s: string, mode: Mode, cur: Option<string>): Option<seq<Token>>
    decreases |s|
  {
    if s == "" then (if mode.Quoted? then None else Some(Flush(cur)))
    else if mode.Quoted? then
      // section 2.2.2: everything up to the next single quote, literally
      if s[0] == '\'' then Tokens(s[1..], Unquoted, Some(Started(cur)))
      else Tokens(s[1..], Quoted, Some(Started(cur) + [s[0]]))
    else if s[0] == '\'' then Tokens(s[1..], Quoted, Some(Started(cur)))
    else if s[0] == '\\' then
      // section 2.2.1: the next character, literally; a newline continues the line
      if |s| == 1 then None
      else if s[1] == '\n' then Tokens(s[2..], Unquoted, cur)
      else Tokens(s[2..], Unquoted, Some(Started(cur) + [s[1]]))
    else if s[0] == ' ' || s[0] == '\t' then Prepend(Flush(cur), Tokens(s[1..], Unquoted, None))
    else if s[0] == ';' then Prepend(Flush(cur) + [Operator(";")], Tokens(s[1..], Unquoted, None))
    else if s[0] == '&' && |s| > 1 && s[1] == '&' then
      Prepend(Flush(cur) + [Operator("&&")], Tokens(s[2..], Unquoted, None))
    else if s[0] == '>' && cur.None? && |s| > 1 && s[1] == ' ' then
      Prepend([Operator(">")], Tokens(s[1..], Unquoted, None))
    else if IsOrdinary(s[0]) then Tokens(s[1..], Unquoted, Some(Started(cur) + [s[0]]))
    else None
  }

  function Read(line: string): Option<seq<Token>> { Tokens(line, Unquoted, None) }

  // ---- quoting

  /** Every single quote closes the quotes, is escaped, and opens them again. */
  function Escaped(s: string): string {
    if s == "" then "" else (if s[0] == '\'' then "'\\''" else [s[0]]) + Escaped(s[1..])
  }

  function ShellQuote(s: string): string { "'" + Escaped(s) + "'" }

  lemma QuotedStep(c: char, rest: string, w: string)
    requires c != '\''
    ensures Tokens([c] + rest, Quoted, Some(w)) == Tokens(rest, Quoted, Some(w + [c]))
  {
    var line := [c] + rest;
    assert line[0] == c && line[1..] == rest;
  }

  lemma CloseQuote(rest: string, w: string)
    ensures Tokens("'" + rest, Quoted, Some(w)) == Tokens(rest, Unquoted, Some(w))
  {
    var line := "'" + rest;
    assert line[0] == '\'' && line[1..] == rest;
  }

  lemma OpenQuote(rest: string, cur: Option<string>)
    ensures Tokens("'" + rest, Unquoted, cur) == Tokens(rest, Quoted, Some(Started(cur)))
  {
    var line := "'" + rest;
    assert line[0] == '\'' && line[1..] == rest;
  }

  lemma BackslashQuote(rest: string, w: string)
    ensures Tokens("\\'" + rest, Unquoted, Some(w)) == Tokens(rest, Unquoted, Some(w + ['\'']))
  {
    var line := "\\'" + rest;
    assert line[0] == '\\' && line[1] == '\'' && line[2..] == rest;
  }

  /** A quote, a backslash, a quote and a quote, read between quotes, add one quote to the word. */
  lemma QuoteInside(tail: string, w: string)
    ensures Tokens("'\\''" + tail, Quoted, Some(w)) == Tokens(tail, Quoted, Some(w + ['\'']))
  {
    hide Tokens;
    assert "'\\''" + tail == "'" + ("\\'" + ("'" + tail));
    CloseQuote("\\'" + ("'" + tail), w);
    BackslashQuote("'" + tail, w);
    OpenQuote(tail, Some(w + ['\'']));
  }

  lemma {:induction false} EscapedReads(s: string, rest: string, w: string)
    ensures Tokens(Escaped(s) + "'" + rest, Quoted, Some(w)) == Tokens(rest, Unquoted, Some(w + s))
  {
    hide Tokens;
    if s == "" {
      assert Escaped(s) + "'" + rest == "'" + rest && w + s == w;
      CloseQuote(rest, w);
    } else {
      var tail := Escaped(s[1..]) + "'" + rest;
      EscapedReads(s[1..], rest, w + [s[0]]);
      assert s == [s[0]] + s[1..];
      assert w + [s[0]] + s[1..] == w + s;
      if s[0] == '\'' {
        assert Escaped(s) + "'" + rest == "'\\''" + tail;
        QuoteInside(tail, w);
      } else {
        assert Escaped(s) + "'" + rest == [s[0]] + tail;
        QuotedStep(s[0], tail, w);
      }
    }
  }

  /** Whatever comes before and after it, quoted text adds exactly itself to the word being read. */
  lemma QuoteReads(s: string, rest: string, cur: Option<string>)
    ensures Tokens(ShellQuote(s) + rest, Unquoted, cur) == Tokens(rest, Unquoted, Some(Started(cur) + s))
  {
    hide Tokens, Escaped;
    var inner := Escaped(s) + "'" + rest;
    assert ShellQuote(s) + rest == "'" + inner;
    OpenQuote(inner, cur);
    EscapedReads(s, rest, Started(cur));
  }

  /** A shell reads `ShellQuote(s)` as the one word s. */
  lemma QuotedIsOneWord(s: string)
    ensures Read(ShellQuote(s)) == Some([Word(s)])
  {
    assert ShellQuote(s) + "" == ShellQuote(s);
    QuoteReads(s, "", None);
    assert "" + s == s;
  }

  // ---- command lines

  function QuotedArgs(args: seq<string>): string {
    if args == [] then "" else " " + ShellQuote(args[0]) + QuotedArgs(args[1..])
  }

  function Words(args: seq<string>): seq<Token> {
    if args == [] then [] else [Word(args[0])] + Words(args[1..])
  }

  lemma BlankReads(rest: string, cur: Option<string>)
    ensures Tokens(" " + rest, Unquoted, cur) == Prepend(Flush(cur), Tokens(rest, Unquoted, None))
  {
    var line := " " + rest;
    assert line[0] == ' ' && line[1..] == rest;
  }

  /** Quoted arguments after a word end it and are read one word each. */
  lemma {:induction false} ArgsRead(args: seq<string>, rest: string, w: string)
    requires rest == "" || rest[0] == ' '
    ensures Tokens(QuotedArgs(args) + rest, Unquoted, Some(w)) ==
      Prepend([Word(w)] + Words(args), Tokens(rest, Unquoted, None))
  {
    if args == [] {
      AfterWord(rest, w);
      hide Tokens;
      assert QuotedArgs(args) + rest == rest && [Word(w)] + Words(args) == [Word(w)];
    } else {
      hide Tokens, ShellQuote, Prepend;
      var more := QuotedArgs(args[1..]) + rest;
      assert QuotedArgs(args) + rest == " " + (ShellQuote(args[0]) + more);
      BlankReads(ShellQuote(args[0]) + more, Some(w));
      QuoteReads(args[0], more, None);
      assert "" + args[0] == args[0];
      ArgsRead(args[1..], rest, args[0]);
      PrependTwice([Word(w)], [Word(args[0])] + Words(args[1..]), Tokens(rest, Unquoted, None));
      assert [Word(w)] + ([Word(args[0])] + Words(args[1..])) == [Word(w)] + Words(args);
    }
  }

  lemma AfterWord(rest: string, w: string)
    requires rest == "" || rest[0] == ' '
    ensures Tokens(rest, Unquoted, Some(w)) == Prepend([Word(w)], Tokens(rest, Unquoted, None))
  {
    if rest == "" {
      assert [Word(w)] + [] == [Word(w)];
    } else {
      var t := Tokens(rest[1..], Unquoted, None);
      assert t.Some? ==> [] + t.value == t.value;
    }
  }

  lemma PrependTwice(a: seq<Token>, b: seq<Token>, rest: Option<seq<Token>>)
    ensures Prepend(a, Prepend(b, rest)) == Prepend(a + b, rest)
  {
    if rest.Some? { assert a + (b + rest.value) == a + b + rest.value; }
  }

  lemma OrdinaryStep(c: char, rest: string, cur: Option<string>)
    requires IsOrdinary(c)
    ensures Tokens([c] + rest, Unquoted, cur) == Tokens(rest, Unquoted, Some(Started(cur) + [c]))
  {
    var line := [c] + rest;
    assert line[0] == c && line[1..] == rest;
  }

  /** Reading ordinary characters just makes the word longer. */
  lemma {:induction false} OrdinaryReads(s: string, rest: string, w: string)
    requires forall c :: c in s ==> IsOrdinary(c)
    ensures Tokens(s + rest, Unquoted, Some(w)) == Tokens(rest, Unquoted, Some(w + s))
  {
    hide Tokens;
    if s == "" {
      assert s + rest == rest && w + s == w;
    } else {
      assert s == [s[0]] + s[1..];
      assert s + rest == [s[0]] + (s[1..] + rest);
      OrdinaryStep(s[0], s[1..] + rest, Some(w));
      OrdinaryReads(s[1..], rest, w + [s[0]]);
      assert w + [s[0]] + s[1..] == w + s;
    }
  }

  lemma WordReads(word: string, rest: string)
    requires word != "" && forall c :: c in word ==> IsOrdinary(c)
    ensures Tokens(word + rest, Unquoted, None) == Tokens(rest, Unquoted, Some(word))
  {
    hide Tokens;
    assert word == [word[0]] + word[1..];
    assert word + rest == [word[0]] + (word[1..] + rest);
    OrdinaryStep(word[0], word[1..] + rest, None);
    OrdinaryReads(word[1..], rest, "" + [word[0]]);
    assert "" + [word[0]] + word[1..] == word;
  }

  method DmgLine(args: seq<string>) returns (line: string)
    ensures line == "dmg -j" + QuotedArgs(args)
  {
    line := "dmg -j";
    assert args[0..] == args;
    for k := 0 to |args|
      invariant line + QuotedArgs(args[k..]) == "dmg -j" + QuotedArgs(args)
    {
      assert args[k..][1..] == args[k + 1..];
      assert line + (" " + ShellQuote(args[k]) + QuotedArgs(args[k + 1..])) ==
          line + " " + ShellQuote(args[k]) + QuotedArgs(args[k + 1..]);
      hide ShellQuote;
      line := line + " " + ShellQuote(args[k]);
    }
    assert args[|args|..] == [] && line + "" == line;
  }

  /** `dmgLine(args)` is read as `dmg -j` followed by exactly args. */
  lemma DmgLineReads(args: seq<string>)
    ensures Read("dmg -j" + QuotedArgs(args)) == Some([Word("dmg"), Word("-j")] + Words(args))
  {
    var rest := QuotedArgs(args);
    assert Tokens("", Unquoted, None) == Some([]);
    hide Tokens, QuotedArgs, Words;
    assert "dmg -j" + rest == "dmg" + (" " + ("-j" + rest));
    WordReads("dmg", " " + ("-j" + rest));
    BlankReads("-j" + rest, Some("dmg"));
    WordReads("-j", rest);
    assert rest + "" == rest;
    ArgsRead(args, "", "-j");
    var words := [Word("-j")] + Words(args);
    PrependTwice([Word("dmg")], words, Some([]));
    assert [Word("dmg")] + words + [] == [Word("dmg"), Word("-j")] + Words(args);
  }

  // ---- writing the ACL file first

  /** The script of `WithACLFile`. */
  function AclScript(entries: seq<string>, path: string, command: seq<string>): string {
    "printf '%s\\n'" + QuotedArgs(entries) + " > " + ShellQuote(path) + " && exec" + QuotedArgs(command)
  }

  /** `WithACLFile` */
  method WithAclFile(entries: seq<string>, path: string, command: seq<string>) returns (out: seq<string>)
    ensures out == if entries == [] then command else ["bash", "-c", AclScript(entries, path, command)]
  {
    if entries == [] { return command; }
    var b := "printf '%s\\n'";
    b := AppendQuoted(b, entries);
    b := b + " > " + ShellQuote(path) + " && exec";
    b := AppendQuoted(b, command);
    out := ["bash", "-c", b];
  }

  method AppendQuoted(b: string, args: seq<string>) returns (out: string)
    ensures out == b + QuotedArgs(args)
  {
    out := b;
    assert args[0..] == args;
    for k := 0 to |args|
      invariant out + QuotedArgs(args[k..]) == b + QuotedArgs(args)
    {
      assert args[k..][1..] == args[k + 1..];
      hide ShellQuote;
      assert out + (" " + ShellQuote(args[k]) + QuotedArgs(args[k + 1..])) ==
          out + " " + ShellQuote(args[k]) + QuotedArgs(args[k + 1..]);
      out := out + " " + ShellQuote(args[k]);
    }
    assert args[|args|..] == [] && out + "" == out;
  }

  lemma RedirectReads(rest: string)
    requires rest != "" && rest[0] == ' '
    ensures Tokens(">" + rest, Unquoted, None) == Prepend([Operator(">")], Tokens(rest, Unquoted, None))
  {
    var line := ">" + rest;
    assert line[0] == '>' && line[1] == ' ' && line[1..] == rest;
  }

  lemma AndReads(rest: string)
    ensures Tokens("&&" + rest, Unquoted, None) == Prepend([Operator("&&")], Tokens(rest, Unquoted, None))
  {
    var line := "&&" + rest;
    assert line[0] == '&' && line[1] == '&' && line[2..] == rest;
    assert Flush(None) + [Operator("&&")] == [Operator("&&")];
  }

  /** The part after the file name: run the command in place of the shell. */
  lemma ExecReads(command: seq<string>)
    ensures Tokens("&& exec" + QuotedArgs(command), Unquoted, None) ==
      Some([Operator("&&"), Word("exec")] + Words(command))
  {
    var args := QuotedArgs(command);
    assert Tokens("", Unquoted, None) == Some([]);
    hide Tokens, QuotedArgs, Words;
    assert "&& exec" + args == "&&" + (" " + ("exec" + args));
    AndReads(" " + ("exec" + args));
    BlankReads("exec" + args, None);
    WordReads("exec", args);
    assert args + "" == args;
    ArgsRead(command, "", "exec");
    var words := [Word("exec")] + Words(command);
    PrependTwice(Flush(None), words, Some([]));
    PrependTwice([Operator("&&")], Flush(None) + words, Some([]));
    assert [Operator("&&")] + (Flush(None) + words) + [] == [Operator("&&"), Word("exec")] + Words(command);
  }

  /** The part from the redirection on. */
  lemma TargetReads(path: string, command: seq<string>)
    ensures Tokens(" > " + ShellQuote(path) + " && exec" + QuotedArgs(command), Unquoted, None) ==
      Some([Operator(">"), Word(path), Operator("&&"), Word("exec")] + Words(command))
  {
    var tail := "&& exec" + QuotedArgs(command);
    ExecReads(command);
    hide Tokens, QuotedArgs, Words, ShellQuote;
    var afterName := " " + tail;
    var name := ShellQuote(path) + afterName;
    assert " > " + ShellQuote(path) + " && exec" + QuotedArgs(command) == " " + (">" + (" " + name));
    BlankReads(">" + (" " + name), None);
    RedirectReads(" " + name);
    BlankReads(name, None);
    QuoteReads(path, afterName, None);
    assert "" + path == path;
    BlankReads(tail, Some(path));
    var last := [Operator("&&"), Word("exec")] + Words(command);
    assert [] + ([Operator(">")] + ([] + ([Word(path)] + last))) ==
           [Operator(">"), Word(path), Operator("&&"), Word("exec")] + Words(command);
  }

  /** The script of `WithACLFile` is read as: print the entries, one argument each, to the file, then run the
      original command, argument by argument. */
  lemma AclScriptReads(entries: seq<string>, path: string, command: seq<string>)
    ensures Read(AclScript(entries, path, command)) ==
      Some([Word("printf"), Word("%s\\n")] + Words(entries) +
           [Operator(">"), Word(path), Operator("&&"), Word("exec")] + Words(command))
  {
    TargetReads(path, command);
    var tail := " > " + ShellQuote(path) + " && exec" + QuotedArgs(command);
    FormatReads(QuotedArgs(entries) + tail);
    hide Tokens, QuotedArgs, Words, ShellQuote;
    var line := QuotedArgs(entries) + tail;
    assert AclScript(entries, path, command) == "printf" + (" " + ("'%s\\n'" + line));
    WordReads("printf", " " + ("'%s\\n'" + line));
    BlankReads("'%s\\n'" + line, Some("printf"));
    assert tail[0] == ' ';
    ArgsRead(entries, tail, "%s\\n");
    var last := [Operator(">"), Word(path), Operator("&&"), Word("exec")] + Words(command);
    assert [Word("printf")] + ([Word("%s\\n")] + Words(entries) + last) ==
           [Word("printf"), Word("%s\\n")] + Words(entries) +
           [Operator(">"), Word(path), Operator("&&"), Word("exec")] + Words(command);
  }

  lemma FormatReads(rest: string)
    ensures Tokens("'%s\\n'" + rest, Unquoted, None) == Tokens(rest, Unquoted, Some("%s\\n"))
  {
    var s := "%s\\n";
    assert s[1..] == "s\\n" && s[1..][1..] == "\\n" && s[1..][1..][1..] == "n" && s[1..][1..][1..][1..] == "";
    assert Escaped("") == "";
    assert Escaped("n") == "n";
    assert Escaped("\\n") == "\\n";
    assert Escaped("s\\n") == "s\\n";
    assert Escaped(s) == s;
    assert ShellQuote(s) == "'%s\\n'";
    QuoteReads(s, rest, None);
    assert "" + s == s;
  }
}
