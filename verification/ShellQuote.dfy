/**
 `shellQuote` against the quoting rules of the POSIX Shell Command Language,
 section 2.2: a backslash quotes the next character (2.2.1, with
 backslash-newline removed as line continuation), single quotes quote
 everything up to the next single quote (2.2.2). Unquoted blanks and newlines
 end a word. Any other character special to the shell makes `Lex` give up.
 */
module ShellQuote {
  import opened Common

  const QUOTE: char := '\''
  const NUL: char := '\0'

  predicate IsBlank(c: char) {
    c == ' ' || c == '\t' || c == '\n'
  }

  /**
   Characters section 2.2 lists as special, or possibly special, when unquoted,
   other than the quoting characters themselves and blanks; and those of the
   reserved words !, { and } of section 2.4.
   */
  predicate IsSpecial(c: char) {
    c in "|&;<>()$`\"*?[#~=%!{}"
  }

  datatype Mode = Unquoted | Quoted | Escaped

  /** `word` is None between words; a quoted empty string starts a word. */
  datatype LexState = LexState(mode: Mode, word: Option<string>, words: seq<string>)

  function Text(word: Option<string>): string {
    if word.Some? then word.value else []
  }

  function LexChar(s: LexState, c: char): Option<LexState> {
    if c == NUL then None
    else
      match s.mode
      case Quoted =>
        if c == QUOTE then Some(s.(mode := Unquoted)) else Some(s.(word := Some(Text(s.word) + [c])))
      case Escaped =>
        if c == '\n' then Some(s.(mode := Unquoted))
        else Some(LexState(Unquoted, Some(Text(s.word) + [c]), s.words))
      case Unquoted =>
        if c == QUOTE then Some(s.(mode := Quoted, word := Some(Text(s.word))))
        else if c == '\\' then Some(s.(mode := Escaped))
        else if IsBlank(c) then
          Some(if s.word.None? then s else LexState(Unquoted, None, s.words + [s.word.value]))
        else if IsSpecial(c) then None
        else Some(s.(word := Some(Text(s.word) + [c])))
  }

  function LexFrom(s: LexState, input: string): Option<LexState>
    decreases |input|
  {
    if input == [] then Some(s)
    else
      match LexChar(s, input[0])
      case None => None
      case Some(s') => LexFrom(s', input[1..])
  }

  /** The words of a command line; None for an open quote or a character outside these rules. */
  function Lex(input: string): Option<seq<string>> {
    match LexFrom(LexState(Unquoted, None, []), input)
    case None => None
    case Some(s) =>
      if !s.mode.Unquoted? then None
      else Some(s.words + if s.word.Some? then [s.word.value] else [])
  }

  /** Each single quote closes the string, adds an escaped quote and reopens it. */
  function ReplaceQuotes(s: string): string {
    if s == [] then [] else (if s[0] == QUOTE then "'\\''" else [s[0]]) + ReplaceQuotes(s[1..])
  }

  function ShellQuote(s: string): string {
    "'" + ReplaceQuotes(s) + "'"
  }

  /** `ReplaceAll`: text without a quote stays, and each quote becomes the same four characters. */
  lemma {:induction false} ReplaceQuotesText(a: string, b: string)
    requires QUOTE !in a
    ensures ReplaceQuotes(a) == a
    ensures ReplaceQuotes(a + [QUOTE] + b) == a + "'\\''" + ReplaceQuotes(b)
    decreases |a|
  {
    if a == [] {
      assert (a + [QUOTE] + b)[1..] == b;
      assert a + "'\\''" == "'\\''";
    } else {
      ReplaceQuotesText(a[1..], b);
      assert (a + [QUOTE] + b)[1..] == a[1..] + [QUOTE] + b;
      assert [a[0]] + a[1..] == a;
    }
  }

  /** Nothing but the enclosing quotes is added to a text without quotes, and three characters for each quote. */
  lemma {:induction false} QuotedLength(s: string)
    ensures |ReplaceQuotes(s)| == |s| + 3 * multiset(s)[QUOTE]
    ensures |ShellQuote(s)| == |s| + 3 * multiset(s)[QUOTE] + 2
  {
    if s != [] {
      QuotedLength(s[1..]);
      assert s == [s[0]] + s[1..];
      assert multiset(s) == multiset{s[0]} + multiset(s[1..]);
    }
  }

  /** Quoted strings with single spaces between them. */
  function Join(list: seq<string>): string {
    if list == [] then [] else if |list| == 1 then ShellQuote(list[0]) else ShellQuote(list[0]) + " " + Join(list[1..])
  }

  // ------------------------------------------------------------------ lexing

  lemma {:induction false} LexConcat(s: LexState, a: string, b: string)
    ensures LexFrom(s, a + b) == match LexFrom(s, a) { case None => None case Some(s') => LexFrom(s', b) }
    decreases |a|
  {
    if a == [] {
      assert a + b == b;
    } else {
      assert (a + b)[0] == a[0] && (a + b)[1..] == a[1..] + b;
      match LexChar(s, a[0])
      case None =>
      case Some(s') => LexConcat(s', a[1..], b);
    }
  }

  lemma LexOne(s: LexState, c: char)
    ensures LexFrom(s, [c]) == LexChar(s, c)
  {
    match LexChar(s, c)
    case None =>
    case Some(s') => assert LexFrom(s', [c][1..]) == Some(s');
  }

  /** Inside quotes the escape sequence adds one single quote and comes back inside. */
  lemma LexEscapedQuote(s: LexState)
    requires s.mode.Quoted? && s.word.Some?
    ensures LexFrom(s, "'\\''") == Some(s.(word := Some(s.word.value + [QUOTE])))
  {
    var s1 := s.(mode := Unquoted);
    var s2 := s.(mode := Escaped);
    var s3 := s.(mode := Unquoted, word := Some(s.word.value + [QUOTE]));
    var s4 := s3.(mode := Quoted);
    LexOne(s, '\'');
    LexConcat(s, "'", "\\''");
    assert "'" + "\\''" == "'\\''";
    LexOne(s1, '\\');
    LexConcat(s1, "\\", "''");
    assert "\\" + "''" == "\\''";
    LexOne(s2, '\'');
    LexConcat(s2, "'", "'");
    assert "'" + "'" == "''";
    LexOne(s3, '\'');
  }

  /** The replaced text between quotes adds exactly the original, or fails on a NUL. */
  lemma {:induction false} LexReplaced(s: LexState, text: string)
    requires s.mode.Quoted? && s.word.Some?
    ensures LexFrom(s, ReplaceQuotes(text)) ==
            if NUL in text then None else Some(s.(word := Some(s.word.value + text)))
    decreases |text|
  {
    if text == [] {
      assert s.word.value + text == s.word.value;
    } else {
      var c, rest := text[0], text[1..];
      assert text == [c] + rest;
      assert NUL in text <==> c == NUL || NUL in rest;
      if c == QUOTE {
        LexEscapedQuote(s);
        LexConcat(s, "'\\''", ReplaceQuotes(rest));
        LexReplaced(s.(word := Some(s.word.value + [c])), rest);
        assert s.word.value + [c] + rest == s.word.value + text;
      } else {
        LexOne(s, c);
        LexConcat(s, [c], ReplaceQuotes(rest));
        if c != NUL {
          LexReplaced(s.(word := Some(s.word.value + [c])), rest);
          assert s.word.value + [c] + rest == s.word.value + text;
        }
      }
    }
  }

  /** One quoted string between words starts and completes one word. */
  lemma LexQuoted(words: seq<string>, text: string)
    ensures LexFrom(LexState(Unquoted, None, words), ShellQuote(text)) ==
            if NUL in text then None else Some(LexState(Unquoted, Some(text), words))
  {
    var s0 := LexState(Unquoted, None, words);
    var s1 := LexState(Quoted, Some([]), words);
    LexOne(s0, QUOTE);
    assert ShellQuote(text) == "'" + (ReplaceQuotes(text) + "'");
    LexConcat(s0, "'", ReplaceQuotes(text) + "'");
    LexReplaced(s1, text);
    LexConcat(s1, ReplaceQuotes(text), "'");
    assert [] + text == text;
    LexOne(LexState(Quoted, Some(text), words), QUOTE);
  }

  ghost predicate NulFree(list: seq<string>) {
    forall i :: 0 <= i < |list| ==> NUL !in list[i]
  }

  lemma NulFreeSplit(list: seq<string>)
    requires list != []
    ensures NulFree(list) <==> NUL !in list[0] && NulFree(list[1..])
  {
    var rest := list[1..];
    assert forall i :: 0 <= i < |rest| ==> rest[i] == list[i + 1];
    assert forall i :: 1 <= i < |list| ==> list[i] == rest[i - 1];
  }

  /** A quoted string and a space: one word more. */
  lemma LexWordAndSpace(words: seq<string>, first: string, input: string)
    ensures LexFrom(LexState(Unquoted, None, words), ShellQuote(first) + " " + input) ==
            if NUL in first then None else LexFrom(LexState(Unquoted, None, words + [first]), input)
  {
    var s0, s1 := LexState(Unquoted, None, words), LexState(Unquoted, Some(first), words);
    LexQuoted(words, first);
    assert ShellQuote(first) + " " + input == ShellQuote(first) + (" " + input);
    LexConcat(s0, ShellQuote(first), " " + input);
    LexOne(s1, ' ');
    LexConcat(s1, " ", input);
  }

  lemma {:induction false} LexJoined(words: seq<string>, list: seq<string>)
    requires list != []
    ensures LexFrom(LexState(Unquoted, None, words), Join(list)) ==
            if NulFree(list) then Some(LexState(Unquoted, Some(list[|list| - 1]), words + list[..|list| - 1])) else None
    decreases |list|
  {
    var first, rest := list[0], list[1..];
    NulFreeSplit(list);
    if rest == [] {
      LexQuoted(words, first);
      assert words + list[..0] == words;
    } else {
      LexWordAndSpace(words, first, Join(rest));
      LexJoined(words + [first], rest);
      assert words + [first] + rest[..|rest| - 1] == words + list[..|list| - 1];
    }
  }

  /**
   For every list of strings: the quoted strings joined by spaces lex back to
   exactly that list, unless one contains a NUL.
   */
  lemma QuotingRoundTrip(list: seq<string>)
    ensures Lex(Join(list)) == if NulFree(list) then Some(list) else None
  {
    if list != [] {
      LexJoined([], list);
      assert [] + list[..|list| - 1] + [list[|list| - 1]] == list;
    }
  }

  /** Characters that stand for themselves outside quotes. */
  predicate IsPlain(c: char) {
    c != NUL && c != QUOTE && c != '\\' && !IsBlank(c) && !IsSpecial(c)
  }

  lemma {:induction false} LexPlain(words: seq<string>, done: Option<string>, word: string)
    requires word != [] && forall i :: 0 <= i < |word| ==> IsPlain(word[i])
    ensures LexFrom(LexState(Unquoted, done, words), word) == Some(LexState(Unquoted, Some(Text(done) + word), words))
    decreases |word|
  {
    var c, rest := word[0], word[1..];
    var s0, s1 := LexState(Unquoted, done, words), LexState(Unquoted, Some(Text(done) + [c]), words);
    assert word == [c] + rest;
    LexOne(s0, c);
    LexConcat(s0, [c], rest);
    if rest != [] {
      LexPlain(words, s1.word, rest);
      assert Text(done) + [c] + rest == Text(done) + word;
    } else {
      assert word == [c];
    }
  }

  lemma LexPlainAndSpace(words: seq<string>, word: string, input: string)
    requires word != [] && forall i :: 0 <= i < |word| ==> IsPlain(word[i])
    ensures LexFrom(LexState(Unquoted, None, words), word + " " + input) ==
            LexFrom(LexState(Unquoted, None, words + [word]), input)
  {
    var s0, s1 := LexState(Unquoted, None, words), LexState(Unquoted, Some(word), words);
    LexPlain(words, None, word);
    assert [] + word == word;
    assert word + " " + input == word + (" " + input);
    LexConcat(s0, word, " " + input);
    LexOne(s1, ' ');
    LexConcat(s1, " ", input);
  }

  lemma CommandWords()
    ensures forall i :: 0 <= i < |"mv"| ==> IsPlain("mv"[i])
    ensures forall i :: 0 <= i < |"-f"| ==> IsPlain("-f"[i])
  {
  }

  lemma LexCommand(args: string)
    ensures LexFrom(LexState(Unquoted, None, []), "mv -f " + args) ==
            LexFrom(LexState(Unquoted, None, ["mv", "-f"]), args)
  {
    CommandWords();
    LexPlainAndSpace([], "mv", "-f" + " " + args);
    LexPlainAndSpace(["mv"], "-f", args);
    assert [] + ["mv"] == ["mv"] && ["mv"] + ["-f"] == ["mv", "-f"];
    assert "mv -f " == "mv" + " " + "-f" + " ";
    assert "mv" + " " + "-f" + " " + args == "mv" + " " + ("-f" + " " + args);
  }

  /** The command the uploader runs is read as four words, whatever the paths contain. */
  lemma MoveCommand(temp: string, target: string)
    requires NUL !in temp && NUL !in target
    ensures Lex("mv -f " + ShellQuote(temp) + " " + ShellQuote(target)) == Some(["mv", "-f", temp, target])
  {
    var args := ShellQuote(temp) + " " + ShellQuote(target);
    assert "mv -f " + ShellQuote(temp) + " " + ShellQuote(target) == "mv -f " + args;
    LexCommand(args);
    LexWordAndSpace(["mv", "-f"], temp, ShellQuote(target));
    LexQuoted(["mv", "-f"] + [temp], target);
    assert ["mv", "-f"] + [temp] + [target] == ["mv", "-f", temp, target];
  }
}
