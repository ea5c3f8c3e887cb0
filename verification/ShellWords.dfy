/**
 * The shell command line built for `su -c` (service/src/user_session.rs), against a tokenizer
 * for the POSIX.1-2017 Shell Command Language, sections 2.2.1, 2.2.2 and 2.3.
 */
module ShellWords {
  import opened Options
  import opened Text

  const QUOTE := '\''
  const BACKSLASH := '\\'

  // ----- The printer -----

  function Escape(c: char): string {
    if c == QUOTE then "'\\''" else [c]
  }

  function Escaped(s: string): string {
    if s == "" then "" else Escape(s[0]) + Escaped(s[1..])
  }

  function Quoted(s: string): string {
    [QUOTE] + Escaped(s) + [QUOTE]
  }

  lemma {:induction false} EscapedAppend(s: string, c: char)
    ensures Escaped(s + [c]) == Escaped(s) + Escape(c)
    decreases |s|
  {
    if s == "" {
      assert Escaped([c]) == Escape(c) + Escaped("");
    } else {
      EscapedAppend(s[1..], c);
      assert (s + [c])[1..] == s[1..] + [c];
      ConcatAssociates(Escape(s[0]), Escaped(s[1..]), Escape(c));
    }
  }

  method ShellSingleQuote(s: string) returns (out: string)
    ensures out == Quoted(s)
  {
    out := [QUOTE];
    for i := 0 to |s|
      invariant out == [QUOTE] + Escaped(s[..i])
    {
      var c := s[i];
      if c == QUOTE {
        out := out + "'\\''";
      } else {
        out := out + [c];
      }
      EscapedAppend(s[..i], c);
      assert s[..i + 1] == s[..i] + [c];
    }
    out := out + [QUOTE];
    assert s[..|s|] == s;
  }

  function QuoteAll(args: seq<string>): seq<string> {
    if args == [] then [] else [Quoted(args[0])] + QuoteAll(args[1..])
  }

  function CommandLine(args: seq<string>): string {
    Join(QuoteAll(args), ' ')
  }

  // ----- The tokenizer -----

  predicate IsBlank(c: char) {
    c == ' ' || c == '\t'
  }

  /** Unquoted, these start an operator, an expansion, a comment or another form of quoting. */
  predicate IsSpecial(c: char) {
    c in "\"$`|&;<>()#*?[~=%{}!\n"
  }

  function Grow(word: Option<string>, c: char): Option<string> {
    Some((if word.Some? then word.value else "") + [c])
  }

  function Flush(words: seq<string>, word: Option<string>): seq<string> {
    if word.Some? then words + [word.value] else words
  }

  /**
   * Read `s` with the word at hand (None between words) and the words before it. The result is
   * None if a quote is left open or the text needs more of the language than these sections.
   */
  function Scan(s: string, quoted: bool, word: Option<string>, words: seq<string>): Option<seq<string>>
    decreases |s|
  {
    if s == "" then
      if quoted then None else Some(Flush(words, word))
    else if quoted then
      if s[0] == QUOTE then Scan(s[1..], false, word, words)
      else Scan(s[1..], true, Grow(word, s[0]), words)
    else if s[0] == QUOTE then
      Scan(s[1..], true, Some(if word.Some? then word.value else ""), words)
    else if s[0] == BACKSLASH then
      if |s| == 1 then None
      else if s[1] == '\n' then Scan(s[2..], false, word, words)
      else Scan(s[2..], false, Grow(word, s[1]), words)
    else if IsBlank(s[0]) then Scan(s[1..], false, None, Flush(words, word))
    else if IsSpecial(s[0]) then None
    else Scan(s[1..], false, Grow(word, s[0]), words)
  }

  function Tokenize(line: string): Option<seq<string>> {
    Scan(line, false, None, [])
  }

  // ----- Round trip -----

  lemma ScanEscapedQuote(rest: string, word: string, words: seq<string>)
    ensures Scan("'\\''" + rest, true, Some(word), words) == Scan(rest, true, Some(word + "'"), words)
  {
    var s := "'\\''" + rest;
    assert s[1..] == "\\''" + rest;
    assert s[1..][2..] == "'" + rest;
    assert ("'" + rest)[1..] == rest;
    assert Scan(s, true, Some(word), words) == Scan(s[1..], false, Some(word), words);
    assert Scan(s[1..], false, Some(word), words) == Scan("'" + rest, false, Some(word + "'"), words);
  }

  /** Inside quotes the scanner undoes the escaping, up to the closing quote. */
  lemma {:induction false} ScanEscaped(s: string, rest: string, word: string, words: seq<string>)
    ensures Scan(Escaped(s) + "'" + rest, true, Some(word), words) == Scan(rest, false, Some(word + s), words)
    decreases |s|
  {
    if s == "" {
      assert (Escaped(s) + "'" + rest)[1..] == rest && word + s == word;
    } else {
      var tail := Escaped(s[1..]) + "'" + rest;
      assert Escaped(s) + "'" + rest == Escape(s[0]) + tail;
      ScanEscaped(s[1..], rest, word + [s[0]], words);
      assert word + [s[0]] + s[1..] == word + s;
      if s[0] == QUOTE {
        ScanEscapedQuote(tail, word, words);
      } else {
        assert ([s[0]] + tail)[1..] == tail;
      }
    }
  }

  lemma ScanWord(arg: string, rest: string, words: seq<string>)
    ensures Scan(Quoted(arg) + rest, false, None, words) == Scan(rest, false, Some(arg), words)
  {
    var s := Quoted(arg) + rest;
    assert s[1..] == Escaped(arg) + "'" + rest;
    ScanEscaped(arg, rest, "", words);
    assert "" + arg == arg;
  }

  lemma ScanFirst(args: seq<string>, words: seq<string>)
    requires |args| > 1
    ensures Scan(CommandLine(args), false, None, words)
      == Scan(CommandLine(args[1..]), false, None, words + [args[0]])
  {
    var tail := CommandLine(args[1..]);
    assert QuoteAll(args)[1..] == QuoteAll(args[1..]);
    assert CommandLine(args) == Quoted(args[0]) + [' '] + tail;
    assert Quoted(args[0]) + [' '] + tail == Quoted(args[0]) + ([' '] + tail);
    ScanWord(args[0], [' '] + tail, words);
    assert ([' '] + tail)[1..] == tail;
  }

  lemma ScanLast(arg: string, words: seq<string>)
    ensures Scan(CommandLine([arg]), false, None, words) == Some(words + [arg])
  {
    ScanWord(arg, "", words);
    assert QuoteAll([arg]) == [Quoted(arg)];
    assert Quoted(arg) + "" == Quoted(arg);
  }

  lemma {:induction false} ScanLine(args: seq<string>, words: seq<string>)
    ensures Scan(CommandLine(args), false, None, words) == Some(words + args)
    decreases |args|
  {
    if args == [] {
      assert words + args == words;
    } else if |args| == 1 {
      ScanLast(args[0], words);
      assert args == [args[0]];
    } else {
      ScanFirst(args, words);
      ScanLine(args[1..], words + [args[0]]);
      assert (words + [args[0]]) + args[1..] == words + args;
    }
  }

  /** Every list of arguments, whatever characters they hold, is read back exactly. */
  lemma CommandLineRoundTrip(args: seq<string>)
    ensures Tokenize(CommandLine(args)) == Some(args)
  {
    ScanLine(args, []);
    assert [] + args == args;
  }

  /** Different argument lists give different command lines. */
  lemma CommandLineIsInjective(a: seq<string>, b: seq<string>)
    ensures CommandLine(a) == CommandLine(b) <==> a == b
  {
    CommandLineRoundTrip(a);
    CommandLineRoundTrip(b);
  }

  // ----- The quoted form, letter by letter -----

  /** A text without single quotes is only put between two. */
  lemma {:induction false} EscapedPlain(s: string)
    requires '\'' !in s
    ensures Escaped(s) == s
    decreases |s|
  {
    if s == "" {
    } else {
      EscapedPlain(s[1..]);
    }
  }

  /** A single quote closes the quoted text, comes escaped, and opens it again. */
  lemma {:induction false} EscapedQuote(a: string, b: string)
    ensures Escaped(a + "'" + b) == Escaped(a) + "'\\''" + Escaped(b)
    decreases |a|
  {
    if a == "" {
      assert (a + "'" + b)[1..] == b;
    } else {
      EscapedQuote(a[1..], b);
      assert (a + "'" + b)[1..] == a[1..] + "'" + b;
    }
  }

  lemma QuotedForm(s: string, a: string, b: string)
    ensures '\'' !in s ==> Quoted(s) == "'" + s + "'"
    ensures Quoted(a + "'" + b) == "'" + Escaped(a) + "'\\''" + Escaped(b) + "'"
  {
    if '\'' !in s {
      EscapedPlain(s);
    }
    EscapedQuote(a, b);
  }

  /** The words stand in order, with one space between two. */
  lemma LineForm(args: seq<string>)
    ensures args == [] ==> CommandLine(args) == ""
    ensures |args| == 1 ==> CommandLine(args) == Quoted(args[0])
    ensures |args| > 1 ==> CommandLine(args) == Quoted(args[0]) + " " + CommandLine(args[1..])
  {
    if |args| == 1 {
      assert QuoteAll(args) == [Quoted(args[0])];
    } else if |args| > 1 {
      assert QuoteAll(args)[1..] == QuoteAll(args[1..]);
      assert |QuoteAll(args[1..])| >= 1;
    }
  }
}
