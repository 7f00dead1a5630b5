// The script that the cgroup backend hands to `sh -c`, against the shell's
// token recognition: "Escape Character (Backslash)", "Single-Quotes" and
// "Token Recognition", sections 2.2.1, 2.2.2 and 2.3 of the POSIX.1-2017
// Shell Command Language.
module ShellQuote {
  import opened GoStrings

  // ---------- The shell ----------

  // A character of a word, and whether it was quoted. Quoted characters take
  // no part in any expansion.
  datatype QChar = QChar(c: char, quoted: bool)

  type Word = seq<QChar>

  datatype Token = WordToken(word: Word) | RedirectOut | NewLine

  // Characters that always stand for themselves.
  predicate IsPlain(c: char) {
    c !in " \t\n\\'\"`$#;&|<>()"
  }

  function Finish(word: Option<Word>): seq<Token> {
    if word.Some? then [WordToken(word.value)] else []
  }

  function Extend(word: Option<Word>, c: char, quoted: bool): Option<Word> {
    if word.Some? then Some(word.value + [QChar(c, quoted)]) else Some([QChar(c, quoted)])
  }

  function Prepend(tokens: seq<Token>, rest: Option<seq<Token>>): Option<seq<Token>> {
    if rest.Some? then Some(tokens + rest.value) else None
  }

  // Token recognition outside quotes; word is the token being built. None
  // stands for an unterminated quotation and for the constructs outside the
  // cited sections: double quotes, expansions other than $$, comments and
  // operators other than > and newline.
  function Lex(s: string, word: Option<Word>): Option<seq<Token>>
    decreases |s|
  {
    if s == [] then
      Some(Finish(word))
    else if s[0] == ' ' || s[0] == '\t' then
      Prepend(Finish(word), Lex(s[1..], None))
    else if s[0] == '\n' then
      Prepend(Finish(word) + [NewLine], Lex(s[1..], None))
    else if s[0] == '\\' then
      if |s| == 1 then None
      else if s[1] == '\n' then Lex(s[2..], word)
      else Lex(s[2..], Extend(word, s[1], true))
    else if s[0] == '\'' then
      LexSingle(s[1..], if word.Some? then word.value else [])
    else if s[0] == '$' then
      if |s| > 1 && s[1] == '$' then Lex(s[2..], Extend(Extend(word, '$', false), '$', false)) else None
    else if s[0] == '>' then
      if word.Some? || |s| == 1 || s[1] in ">&|" then None else Prepend([RedirectOut], Lex(s[1..], None))
    else if IsPlain(s[0]) then
      Lex(s[1..], Extend(word, s[0], false))
    else
      None
  }

  // Inside single quotes every character up to the next quote is literal.
  function LexSingle(s: string, word: Word): Option<seq<Token>>
    decreases |s|
  {
    if s == [] then None
    else if s[0] == '\'' then Lex(s[1..], Some(word))
    else LexSingle(s[1..], word + [QChar(s[0], true)])
  }

  // ---------- The quoting ----------

  function Escape(s: string): string {
    if s == [] then [] else Escape(s[..|s| - 1]) + if s[|s| - 1] == '\'' then "'\\''" else [s[|s| - 1]]
  }

  // What shellQuote returns.
  function Quote(s: string): string {
    "'" + Escape(s) + "'"
  }

  method QuoteArg(s: string) returns (out: string)
    ensures out == Quote(s)
  {
    if s == "" {
      return "''";
    }
    out := "'";
    for i := 0 to |s|
      invariant out == "'" + Escape(s[..i])
    {
      assert s[..i + 1][..i] == s[..i];
      if s[i] == '\'' {
        out := out + "'\\''";
      } else {
        out := out + [s[i]];
      }
    }
    assert s[..|s|] == s;
    out := out + "'";
  }

  function QuotedArgs(args: seq<string>): string {
    if args == [] then "" else QuotedArgs(args[..|args| - 1]) + Quote(args[|args| - 1]) + " "
  }

  function Prelude(procsFile: string, rtPriority: int, inner: seq<string>): string {
    "printf %d $$ > " + Quote(procsFile) + "\n"
    + (if rtPriority > 0 then "exec chrt -f " + Itoa(rtPriority) + " " else "exec ")
    + QuotedArgs(inner)
  }

  // The script of Wrap; None is its error for a command without path or
  // arguments.
  method BuildPrelude(procsFile: string, rtPriority: int, path: string, args: seq<string>) returns (r: Option<string>)
    ensures r == if path == "" || args == [] then None else Some(Prelude(procsFile, rtPriority, [path] + args[1..]))
  {
    hide Quote, QuotedArgs, Itoa;
    if path == "" || |args| == 0 {
      return None;
    }
    var inner := [path] + args[1..];
    var procs := QuoteArg(procsFile);
    var prelude := "printf %d $$ > " + procs + "\n";
    if rtPriority > 0 {
      prelude := prelude + ("exec chrt -f " + Itoa(rtPriority) + " ");
    } else {
      prelude := prelude + "exec ";
    }
    prelude := AppendArgs(prelude, inner);
    return Some(prelude);
  }

  method AppendArgs(head: string, inner: seq<string>) returns (prelude: string)
    ensures prelude == head + QuotedArgs(inner)
  {
    hide Quote;
    prelude := head;
    for i := 0 to |inner|
      invariant prelude == head + QuotedArgs(inner[..i])
    {
      assert inner[..i + 1][..i] == inner[..i];
      var quoted := QuoteArg(inner[i]);
      prelude := prelude + (quoted + " ");
    }
    assert inner[..|inner|] == inner;
  }

  // ---------- Single steps of the lexer ----------

  lemma PrependTwice(a: seq<Token>, b: seq<Token>, rest: Option<seq<Token>>)
    ensures Prepend(a, Prepend(b, rest)) == Prepend(a + b, rest)
  {
    if rest.Some? {
      assert a + (b + rest.value) == a + b + rest.value;
    }
  }

  lemma ChainTokens(a: seq<Token>, b: seq<Token>, c: seq<Token>, d: seq<Token>, e: seq<Token>)
    ensures Prepend(a, Prepend(b, Prepend(c, Prepend(d, Some(e))))) == Some(a + b + c + d + e)
  {
    assert a + (b + (c + (d + e))) == a + b + c + d + e;
  }

  lemma LexSpace(rest: string, word: Option<Word>)
    ensures Lex([' '] + rest, word) == Prepend(Finish(word), Lex(rest, None))
  {
    assert ([' '] + rest)[1..] == rest;
  }

  lemma LexNothing(rest: string)
    ensures Lex([' '] + rest, None) == Lex(rest, None)
  {
    LexSpace(rest, None);
    var r := Lex(rest, None);
    assert r.Some? ==> [] + r.value == r.value;
  }

  lemma LexNewLine(rest: string, word: Word)
    ensures Lex(['\n'] + rest, Some(word)) == Prepend([WordToken(word), NewLine], Lex(rest, None))
  {
    assert (['\n'] + rest)[1..] == rest;
    assert Finish(Some(word)) + [NewLine] == [WordToken(word), NewLine];
  }

  lemma LexBackslash(c: char, rest: string, word: Word)
    requires c != '\n'
    ensures Lex(['\\', c] + rest, Some(word)) == Lex(rest, Some(word + [QChar(c, true)]))
  {
    assert (['\\', c] + rest)[2..] == rest;
  }

  lemma LexOpenQuote(rest: string, word: Word)
    ensures Lex(['\''] + rest, Some(word)) == LexSingle(rest, word)
    ensures Lex(['\''] + rest, None) == LexSingle(rest, [])
    ensures LexSingle(['\''] + rest, word) == Lex(rest, Some(word))
  {
    assert (['\''] + rest)[1..] == rest;
  }

  // ---------- The shell reads back what was quoted ----------

  // All characters of s, quoted.
  function AllQuoted(s: string): Word {
    seq(|s|, i requires 0 <= i < |s| => QChar(s[i], true))
  }

  lemma {:induction false} LexEscaped(s: string, rest: string, word: Word)
    ensures LexSingle(Escape(s) + rest, word) == LexSingle(rest, word + AllQuoted(s))
    decreases |s|
  {
    if s == [] {
      assert Escape(s) + rest == rest && word + AllQuoted(s) == word;
    } else {
      var n := |s| - 1;
      var c := s[n];
      var last := if c == '\'' then "'\\''" else [c];
      assert Escape(s) + rest == Escape(s[..n]) + (last + rest);
      LexEscaped(s[..n], last + rest, word);
      assert word + AllQuoted(s) == word + AllQuoted(s[..n]) + [QChar(c, true)];
      LexLast(c, rest, word + AllQuoted(s[..n]));
    }
  }

  lemma LexLast(c: char, rest: string, word: Word)
    ensures LexSingle((if c == '\'' then "'\\''" else [c]) + rest, word) == LexSingle(rest, word + [QChar(c, true)])
  {
    if c == '\'' {
      LexOpenQuote("\\''" + rest, word);
      assert "'\\''" + rest == ['\''] + ("\\''" + rest);
      LexBackslash('\'', "'" + rest, word);
      assert "\\''" + rest == ['\\', '\''] + ("'" + rest);
      LexOpenQuote(rest, word + [QChar(c, true)]);
    } else {
      assert ([c] + rest)[1..] == rest;
    }
  }

  // A quoted text, whatever its characters, is lexed as itself.
  lemma LexQuote(s: string, rest: string)
    ensures Lex(Quote(s) + rest, None) == Lex(rest, Some(AllQuoted(s)))
  {
    assert Quote(s) + rest == ['\''] + (Escape(s) + ("'" + rest));
    LexOpenQuote(Escape(s) + ("'" + rest), []);
    LexEscaped(s, "'" + rest, []);
    assert [] + AllQuoted(s) == AllQuoted(s);
    LexOpenQuote(rest, AllQuoted(s));
  }

  function QuotedTokens(args: seq<string>): seq<Token> {
    seq(|args|, i requires 0 <= i < |args| => WordToken(AllQuoted(args[i])))
  }

  lemma LexArg(arg: string, rest: string)
    ensures Lex(Quote(arg) + " " + rest, None) == Prepend([WordToken(AllQuoted(arg))], Lex(rest, None))
  {
    assert Quote(arg) + " " + rest == Quote(arg) + (" " + rest);
    LexQuote(arg, " " + rest);
    LexSpace(rest, Some(AllQuoted(arg)));
  }

  // The argument list comes back from the shell exactly, each argument as
  // one word with all its characters quoted.
  lemma {:induction false} LexArgs(args: seq<string>, rest: string)
    ensures Lex(QuotedArgs(args) + rest, None) == Prepend(QuotedTokens(args), Lex(rest, None))
    decreases |args|
  {
    if args == [] {
      assert QuotedArgs(args) + rest == rest;
      var r := Lex(rest, None);
      assert r.Some? ==> QuotedTokens(args) + r.value == r.value;
    } else {
      var n := |args| - 1;
      var tail := Quote(args[n]) + " " + rest;
      assert QuotedArgs(args) + rest == QuotedArgs(args[..n]) + tail;
      LexArgs(args[..n], tail);
      LexArg(args[n], rest);
      var r := Lex(rest, None);
      assert r.Some? ==>
          QuotedTokens(args) + r.value == QuotedTokens(args[..n]) + ([WordToken(AllQuoted(args[n]))] + r.value);
    }
  }

  lemma LexArgsOnly(args: seq<string>)
    ensures Lex(QuotedArgs(args), None) == Some(QuotedTokens(args))
  {
    LexArgs(args, "");
    assert QuotedArgs(args) + "" == QuotedArgs(args);
    assert QuotedTokens(args) + [] == QuotedTokens(args);
  }

  // ---------- The whole script ----------

  function Unquoted(s: string): Word {
    seq(|s|, i requires 0 <= i < |s| => QChar(s[i], false))
  }

  predicate AllPlain(s: string) {
    forall c <- s :: IsPlain(c)
  }

  lemma {:induction false} LexPlain(s: string, rest: string, word: Word)
    requires AllPlain(s)
    ensures Lex(s + rest, Some(word)) == Lex(rest, Some(word + Unquoted(s)))
    decreases |s|
  {
    if s == [] {
      assert s + rest == rest && word + Unquoted(s) == word;
    } else {
      assert IsPlain(s[0]);
      assert (s + rest)[1..] == s[1..] + rest;
      LexPlain(s[1..], rest, word + [QChar(s[0], false)]);
      assert word + [QChar(s[0], false)] + Unquoted(s[1..]) == word + Unquoted(s);
    }
  }

  // A plain word followed by a space.
  lemma LexWord(s: string, rest: string)
    requires s != [] && AllPlain(s)
    ensures Lex(s + " " + rest, None) == Prepend([WordToken(Unquoted(s))], Lex(rest, None))
  {
    var whole := s + " " + rest;
    assert IsPlain(s[0]);
    assert whole[0] == s[0] && whole[1..] == s[1..] + (" " + rest);
    assert forall c <- s[1..] :: c in s;
    LexPlain(s[1..], " " + rest, [QChar(s[0], false)]);
    assert [QChar(s[0], false)] + Unquoted(s[1..]) == Unquoted(s);
    LexSpace(rest, Some(Unquoted(s)));
  }

  function ExecTokens(rtPriority: int): seq<Token> {
    if rtPriority > 0 then
      [WordToken(Unquoted("exec")), WordToken(Unquoted("chrt")), WordToken(Unquoted("-f")),
        WordToken(Unquoted(Itoa(rtPriority)))]
    else
      [WordToken(Unquoted("exec"))]
  }

  lemma LexExec(rtPriority: int, inner: seq<string>)
    ensures var head := if rtPriority > 0 then "exec chrt -f " + Itoa(rtPriority) + " " else "exec ";
            Lex(head + QuotedArgs(inner), None)
            == Some(ExecTokens(rtPriority) + QuotedTokens(inner))
  {
    hide Lex, QuotedArgs, IsPlain, QuotedTokens, Unquoted, Itoa;
    LexArgsOnly(inner);
    PlainWords();
    var args := QuotedArgs(inner);
    if rtPriority > 0 {
      var n := Itoa(rtPriority);
      DigitsPlain(rtPriority);
      var t3 := n + " " + args;
      var t2 := "-f" + " " + t3;
      var t1 := "chrt" + " " + t2;
      LexWord(n, args);
      LexWord("-f", t3);
      LexWord("chrt", t2);
      LexWord("exec", t1);
      assert "exec chrt -f " + n + " " + args == "exec" + " " + t1;
      assert ExecTokens(rtPriority) == [WordToken(Unquoted("exec"))] + [WordToken(Unquoted("chrt"))]
                                       + [WordToken(Unquoted("-f"))] + [WordToken(Unquoted(n))];
      ChainTokens([WordToken(Unquoted("exec"))], [WordToken(Unquoted("chrt"))], [WordToken(Unquoted("-f"))],
                  [WordToken(Unquoted(n))], QuotedTokens(inner));
    } else {
      LexWord("exec", args);
      assert ExecTokens(rtPriority) == [WordToken(Unquoted("exec"))];
      assert "exec " + args == "exec" + " " + args;
    }
  }

  lemma PlainWords()
    ensures AllPlain("exec") && AllPlain("chrt") && AllPlain("-f") && AllPlain("printf") && AllPlain("%d")
  {
  }

  lemma DigitsPlain(n: int)
    requires n > 0
    ensures AllPlain(Itoa(n)) && Itoa(n) != ""
  {
    assert AllDigits(DigitsOf(n));
    assert forall c: char :: IsDigit(c) ==> IsPlain(c);
  }

  // The tokens of the first line up to the redirection's target.
  function JoinTokens(): seq<Token> {
    [WordToken(Unquoted("printf")), WordToken(Unquoted("%d")), WordToken(Unquoted("$$")), RedirectOut]
  }

  lemma LexTarget(procsFile: string, rest: string)
    ensures Lex(Quote(procsFile) + "\n" + rest, None)
        == Prepend([WordToken(AllQuoted(procsFile)), NewLine], Lex(rest, None))
  {
    assert Quote(procsFile) + "\n" + rest == Quote(procsFile) + ("\n" + rest);
    LexQuote(procsFile, "\n" + rest);
    LexNewLine(rest, AllQuoted(procsFile));
  }

  lemma LexPidAndArrow(rest: string)
    ensures Lex("$$ > " + rest, None) == Prepend([WordToken(Unquoted("$$")), RedirectOut], Lex(rest, None))
  {
    var arrow := "> " + rest;
    assert [QChar('$', false)] + [QChar('$', false)] == [QChar('$', false), QChar('$', false)];
    LexArrow(rest);
    LexSpace(arrow, Some([QChar('$', false), QChar('$', false)]));
    assert Unquoted("$$") == [QChar('$', false), QChar('$', false)];
    assert ("$$ > " + rest)[2..] == [' '] + arrow;
    PrependTwice([WordToken(Unquoted("$$"))], [RedirectOut], Lex(rest, None));
    assert [WordToken(Unquoted("$$"))] + [RedirectOut] == [WordToken(Unquoted("$$")), RedirectOut];
  }

  lemma LexArrow(rest: string)
    ensures Lex("> " + rest, None) == Prepend([RedirectOut], Lex(rest, None))
  {
    assert ("> " + rest)[1..] == [' '] + rest;
    LexNothing(rest);
  }

  lemma JoinedUp(procsFile: string, rtPriority: int, inner: seq<string>)
    ensures [WordToken(Unquoted("printf"))] + [WordToken(Unquoted("%d"))] + [WordToken(Unquoted("$$")), RedirectOut]
            + [WordToken(AllQuoted(procsFile)), NewLine] + (ExecTokens(rtPriority) + QuotedTokens(inner))
            == JoinTokens() + [WordToken(AllQuoted(procsFile)), NewLine] + ExecTokens(rtPriority) + QuotedTokens(inner)
  {
    hide ExecTokens, QuotedTokens, AllQuoted, Unquoted;
  }

  // The shell reads the script as: print the shell's own pid into the
  // cgroup's process file, then exec the command with exactly the arguments
  // given, under chrt when a priority is set.
  lemma ShellRunsTheCommand(procsFile: string, rtPriority: int, inner: seq<string>)
    ensures Lex(Prelude(procsFile, rtPriority, inner), None) ==
              Some(JoinTokens() + [WordToken(AllQuoted(procsFile)), NewLine] + ExecTokens(rtPriority)
                + QuotedTokens(inner))
  {
    hide Lex, QuotedArgs, IsPlain, Quote, ExecTokens, QuotedTokens, AllQuoted, Unquoted;
    var second := (if rtPriority > 0 then "exec chrt -f " + Itoa(rtPriority) + " " else "exec ") + QuotedArgs(inner);
    var target := Quote(procsFile) + "\n" + second;
    var pid := "$$ > " + target;
    var format := "%d" + " " + pid;
    PlainWords();
    LexExec(rtPriority, inner);
    LexTarget(procsFile, second);
    LexPidAndArrow(target);
    LexWord("%d", pid);
    LexWord("printf", format);
    assert Prelude(procsFile, rtPriority, inner) == "printf" + " " + format;
    ChainTokens([WordToken(Unquoted("printf"))], [WordToken(Unquoted("%d"))], [WordToken(Unquoted("$$")), RedirectOut],
                [WordToken(AllQuoted(procsFile)), NewLine], ExecTokens(rtPriority) + QuotedTokens(inner));
    JoinedUp(procsFile, rtPriority, inner);
  }
}
