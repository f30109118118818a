/** Quoting a command for `su -c`, against the token recognition of the POSIX.1-2017 Shell Command Language. */
module ShellQuoting {
  import opened Wrappers

  /** `shell_quote`: a single quote closes the quotes, comes escaped, and opens them again. */
  function Escaped(value: string): string {
    if value == "" then ""
    else (if value[0] == '\'' then "'\\''" else [value[0]]) + Escaped(value[1..])
  }

  function Quoted(value: string): string { "'" + Escaped(value) + "'" }

  method ShellQuote(value: string) returns (quoted: string)
    ensures quoted == Quoted(value)
  {
    quoted := "'";
    for i := 0 to |value|
      invariant quoted + Escaped(value[i..]) == "'" + Escaped(value)
    {
      assert value[i..][1..] == value[i + 1..];
      ghost var before, rest := quoted, Escaped(value[i + 1..]);
      if value[i] == '\'' {
        quoted := quoted + "'\\''";
        assert before + ("'\\''" + rest) == quoted + rest;
      } else {
        quoted := quoted + [value[i]];
        assert before + ([value[i]] + rest) == quoted + rest;
      }
    }
    assert Escaped(value[|value|..]) == "";
    quoted := quoted + "'";
  }

  lemma {:induction false} NothingToEscape(value: string)
    requires '\'' !in value
    ensures Escaped(value) == value
  {
    if value != "" {
      NothingToEscape(value[1..]);
      assert [value[0]] + value[1..] == value;
    }
  }

  lemma {:induction false} EscapedConcat(left: string, right: string)
    ensures Escaped(left + right) == Escaped(left) + Escaped(right)
  {
    if left == "" {
      assert left + right == right;
    } else {
      assert (left + right)[1..] == left[1..] + right;
      EscapedConcat(left[1..], right);
    }
  }

  /** Text goes between single quotes as it is; a single quote in it closes them, comes after a backslash, and opens
      them again. */
  lemma QuotingByParts(text: string, rest: string)
    requires '\'' !in text
    ensures Quoted(text) == "'" + text + "'"
    ensures Quoted(text + "'" + rest) == "'" + text + "'\\''" + Quoted(rest)[1..]
  {
    NothingToEscape(text);
    assert text + "'" + rest == text + ("'" + rest) && ("'" + rest)[1..] == rest;
    EscapedConcat(text, "'" + rest);
    assert Quoted(rest)[1..] == Escaped(rest) + "'";
    assert Escaped("'" + rest) == "'\\''" + Escaped(rest);
  }

  function QuotedArgs(args: seq<string>): string {
    if args == [] then "" else " " + Quoted(args[0]) + QuotedArgs(args[1..])
  }

  function Script(program: string, args: seq<string>): string {
    "exec " + Quoted(program) + QuotedArgs(args)
  }

  /** The script part of `command_for_identity`. */
  method BuildScript(program: string, args: seq<string>) returns (script: string)
    ensures script == Script(program, args)
  {
    script := "exec ";
    var quoted := ShellQuote(program);
    script := script + quoted;
    for i := 0 to |args|
      invariant script + QuotedArgs(args[i..]) == Script(program, args)
    {
      ghost var before, rest := script, QuotedArgs(args[i + 1..]);
      assert args[i..][1..] == args[i + 1..];
      quoted := ShellQuote(args[i]);
      script := script + " ";
      script := script + quoted;
      assert before + (" " + Quoted(args[i]) + rest) == script + rest;
    }
    assert args[|args|..] == [];
    assert script + "" == script;
  }

  /** Characters that stand for themselves outside quotes, wherever they are in a word (section 2.2). */
  predicate Plain(c: char) {
    'a' <= c <= 'z' || 'A' <= c <= 'Z' || '0' <= c <= '9' || c in "_-./,:+@"
  }

  /** The fields of a simple command (sections 2.2.1, 2.2.2 and 2.3): `word` is the token under construction.
      `None` is an unfinished quotation, or an unquoted character that would start an operator, an expansion or a
      comment, so `Some` means that the fields are exactly what the utility gets. */
  function Fields(script: string, word: Option<string>, inQuotes: bool): Option<seq<string>>
    decreases |script|
  {
    if script == "" then
      if inQuotes then None else Some(if word.Some? then [word.value] else [])
    else
      var c, rest := script[0], script[1..];
      var soFar := if word.Some? then word.value else "";
      if inQuotes then
        if c == '\'' then Fields(rest, Some(soFar), false) else Fields(rest, Some(soFar + [c]), true)
      else if c == '\'' then Fields(rest, Some(soFar), true)
      else if c == '\\' then
        if rest == "" then None
        else if rest[0] == '\n' then Fields(rest[1..], word, false)
        else Fields(rest[1..], Some(soFar + [rest[0]]), false)
      else if c == ' ' || c == '\t' then
        match word
        case None => Fields(rest, None, false)
        case Some(done) => Prepend(done, Fields(rest, None, false))
      else if Plain(c) then Fields(rest, Some(soFar + [c]), false)
      else None
  }

  function Prepend(word: string, fields: Option<seq<string>>): Option<seq<string>> {
    match fields case None => None case Some(words) => Some([word] + words)
  }

  lemma EscapedQuoteReadsBack(word: string, tail: string)
    ensures Fields("'\\''" + tail, Some(word), true) == Fields(tail, Some(word + ['\'']), true)
  {
    var script := "'\\''" + tail;
    assert script[1..] == "\\''" + tail && script[1..][1..] == "''" + tail;
    assert script[1..][1..][1..] == "'" + tail && ("'" + tail)[1..] == tail;
    assert Fields(script, Some(word), true) == Fields("\\''" + tail, Some(word), false);
    assert Fields("\\''" + tail, Some(word), false) == Fields("'" + tail, Some(word + ['\'']), false);
    assert Fields("'" + tail, Some(word + ['\'']), false) == Fields(tail, Some(word + ['\'']), true);
  }

  lemma QuotedCharReadsBack(c: char, word: string, tail: string)
    requires c != '\''
    ensures Fields([c] + tail, Some(word), true) == Fields(tail, Some(word + [c]), true)
  {
    assert ([c] + tail)[1..] == tail;
  }

  lemma ClosingQuoteReadsBack(word: string, tail: string)
    ensures Fields("'" + tail, Some(word), true) == Fields(tail, Some(word), false)
  {
    assert ("'" + tail)[1..] == tail;
  }

  lemma BlankEndsWord(word: string, tail: string)
    ensures Fields(" " + tail, Some(word), false) == Prepend(word, Fields(tail, None, false))
  {
    assert (" " + tail)[1..] == tail;
  }

  /** Inside the quotes the escaped value adds exactly the value to the word, up to and past the closing quote. */
  lemma {:induction false} EscapedReadsBack(value: string, word: string, rest: string)
    ensures Fields(Escaped(value) + "'" + rest, Some(word), true) == Fields(rest, Some(word + value), false)
    decreases |value|
  {
    hide Fields;
    if value == "" {
      assert Escaped(value) + "'" + rest == "'" + rest;
      assert word + value == word;
      ClosingQuoteReadsBack(word, rest);
    } else {
      var tail := Escaped(value[1..]) + "'" + rest;
      assert word + value == (word + [value[0]]) + value[1..];
      EscapedReadsBack(value[1..], word + [value[0]], rest);
      if value[0] == '\'' {
        assert Escaped(value) + "'" + rest == "'\\''" + tail;
        EscapedQuoteReadsBack(word, tail);
      } else {
        assert Escaped(value) + "'" + rest == [value[0]] + tail;
        QuotedCharReadsBack(value[0], word, tail);
      }
    }
  }

  lemma QuotedReadsBack(value: string, rest: string)
    ensures Fields(Quoted(value) + rest, None, false) == Fields(rest, Some(value), false)
  {
    var inner := Escaped(value) + "'" + rest;
    assert Quoted(value) + rest == "'" + inner && ("'" + inner)[1..] == inner;
    EscapedReadsBack(value, "", rest);
    assert "" + value == value;
  }

  lemma {:induction false} ArgsReadBack(word: string, args: seq<string>)
    ensures Fields(QuotedArgs(args), Some(word), false) == Some([word] + args)
    decreases |args|
  {
    if args == [] {
      assert [word] + [] == [word];
    } else {
      hide Fields;
      var rest := QuotedArgs(args[1..]);
      assert QuotedArgs(args) == " " + (Quoted(args[0]) + rest);
      BlankEndsWord(word, Quoted(args[0]) + rest);
      QuotedReadsBack(args[0], rest);
      ArgsReadBack(args[0], args[1..]);
      assert [args[0]] + args[1..] == args;
    }
  }

  /** The shell sees exactly `exec`, the program and the arguments, whatever characters they contain. */
  lemma ScriptRoundTrip(program: string, args: seq<string>)
    ensures Fields(Script(program, args), None, false) == Some(["exec", program] + args)
  {
    var rest := Quoted(program) + QuotedArgs(args);
    ExecIsAWord(rest);
    assert Script(program, args) == "exec " + rest;
    QuotedReadsBack(program, QuotedArgs(args));
    ArgsReadBack(program, args);
    assert ["exec"] + ([program] + args) == ["exec", program] + args;
  }

  lemma ExecIsAWord(rest: string)
    ensures Fields("exec " + rest, None, false) == Prepend("exec", Fields(rest, None, false))
  {
    assert ("exec " + rest)[1..] == "xec " + rest && ("xec " + rest)[1..] == "ec " + rest;
    assert ("ec " + rest)[1..] == "c " + rest && ("c " + rest)[1..] == " " + rest && (" " + rest)[1..] == rest;
    assert Fields(" " + rest, Some("exec"), false) == Prepend("exec", Fields(rest, None, false));
    assert "" + ['e'] == "e" && "e" + ['x'] == "ex" && "ex" + ['e'] == "exe" && "exe" + ['c'] == "exec";
    assert Fields("c " + rest, Some("exe"), false) == Fields(" " + rest, Some("exec"), false);
    assert Fields("ec " + rest, Some("ex"), false) == Fields("c " + rest, Some("exe"), false);
    assert Fields("xec " + rest, Some("e"), false) == Fields("ec " + rest, Some("ex"), false);
  }
}
