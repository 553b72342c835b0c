/** The command line an evidence record shows, and its reading by the POSIX shell grammar. */
module Quoting {
  import opened Model

  const QUOTE: char := '\''
  const BACKSLASH: char := '\\'

  // ---- rendering ----

  predicate Plain(c: char) {
    || 'a' <= c <= 'z' || 'A' <= c <= 'Z' || '0' <= c <= '9'
    || c == '-' || c == '_' || c == '.' || c == '/' || c == '=' || c == ':' || c == '+' || c == '@' || c == ','
  }

  predicate AllPlain(text: string) {
    forall i | 0 <= i < |text| :: Plain(text[i])
  }

  /** Every single quote becomes: close, escaped quote, open. */
  function Escape(argument: string): string {
    if argument == [] then []
    else (if argument[0] == QUOTE then [QUOTE, BACKSLASH, QUOTE, QUOTE] else [argument[0]]) + Escape(argument[1..])
  }

  /** `render_argument`. */
  function Render(argument: string): string {
    if argument != [] && AllPlain(argument) then argument
    else [QUOTE] + (Escape(argument) + [QUOTE])
  }

  /** `command_line` of an executed run. */
  function CommandLine(argv: seq<string>): string {
    if argv == [] then []
    else if |argv| == 1 then Render(argv[0])
    else Render(argv[0]) + ([' '] + CommandLine(argv[1..]))
  }

  // ---- reading (Shell Command Language, sections 2.2.1, 2.2.2 and 2.3) ----

  predicate Blank(c: char) { c == ' ' || c == '\t' }

  /** Characters that mean something else than themselves when unquoted. */
  predicate Special(c: char) {
    || c == '|' || c == '&' || c == ';' || c == '<' || c == '>' || c == '(' || c == ')'
    || c == '$' || c == '`' || c == '"' || c == '\n'
    || c == '*' || c == '?' || c == '[' || c == '~' || c == '%' || c == '!' || c == '{' || c == '}'
  }

  /** Where the single quote that closes a quotation stands. */
  function Closing(text: string): (n: Option<nat>)
    ensures n.Some? ==> n.value < |text| && text[n.value] == QUOTE && QUOTE !in text[..n.value]
    ensures n.None? ==> QUOTE !in text
  {
    if text == [] then None
    else if text[0] == QUOTE then Some(0)
    else
      match Closing(text[1..])
      case None => None
      case Some(n) =>
        assert text[..n + 1] == [text[0]] + text[1..][..n];
        Some(n + 1)
  }

  function So(word: Option<string>): string {
    if word.Some? then word.value else []
  }

  /** The words of a line, `word` being the one in progress; nothing where an unquoted character is
      not a literal one. */
  function Words(text: string, word: Option<string>): Option<seq<string>>
    decreases |text|
  {
    if text == [] then Some(if word.Some? then [word.value] else [])
    else
      var c := text[0];
      if Blank(c) then
        match Words(text[1..], None)
        case None => None
        case Some(rest) => Some((if word.Some? then [word.value] else []) + rest)
      else if c == QUOTE then
        match Closing(text[1..])
        case None => None
        case Some(n) => Words(text[n + 2..], Some(So(word) + text[1..n + 1]))
      else if c == BACKSLASH then
        if |text| < 2 then None
        else if text[1] == '\n' then Words(text[2..], word)
        else Words(text[2..], Some(So(word) + [text[1]]))
      else if Special(c) || (c == '#' && word.None?) then None
      else Words(text[1..], Some(So(word) + [c]))
  }

  // ---- the round trip ----

  lemma {:induction false} PlainReads(text: string, rest: string, word: Option<string>)
    requires AllPlain(text) && text != []
    ensures Words(text + rest, word) == Words(rest, Some(So(word) + text))
    decreases |text|
  {
    hide Words;
    var c := text[0];
    assert (text + rest)[0] == c && (text + rest)[1..] == text[1..] + rest;
    OnePlain(text + rest, word);
    if |text| == 1 {
      assert text == [c] && text[1..] + rest == rest;
    } else {
      PlainReads(text[1..], rest, Some(So(word) + [c]));
      assert (So(word) + [c]) + text[1..] == So(word) + text;
    }
  }

  lemma OnePlain(line: string, word: Option<string>)
    requires line != [] && Plain(line[0])
    ensures Words(line, word) == Words(line[1..], Some(So(word) + [line[0]]))
  {}

  lemma {:induction false} EscapeSplits(a: string, b: string)
    ensures Escape(a + b) == Escape(a) + Escape(b)
    decreases |a|
  {
    if a == [] {
      assert a + b == b;
    } else {
      assert (a + b)[0] == a[0] && (a + b)[1..] == a[1..] + b;
      EscapeSplits(a[1..], b);
    }
  }

  lemma {:induction false} EscapeNothing(a: string)
    requires QUOTE !in a
    ensures Escape(a) == a
  {
    if a == [] {
    } else {
      EscapeNothing(a[1..]);
      assert a == [a[0]] + a[1..];
    }
  }

  /** A quotation without quotes inside is read as it stands. */
  lemma QuotationReads(text: string, rest: string, word: Option<string>)
    requires QUOTE !in text
    ensures Words([QUOTE] + (text + ([QUOTE] + rest)), word) == Words(rest, Some(So(word) + text))
  {
    var line := [QUOTE] + (text + ([QUOTE] + rest));
    var after := text + ([QUOTE] + rest);
    assert line[1..] == after;
    FirstQuote(text, rest);
    assert line[|text| + 2..] == rest && line[1..|text| + 1] == text;
  }

  lemma {:induction false} FirstQuote(text: string, rest: string)
    requires QUOTE !in text
    ensures Closing(text + ([QUOTE] + rest)) == Some(|text|)
    decreases |text|
  {
    var line := text + ([QUOTE] + rest);
    if text == [] {
      assert line == [QUOTE] + rest;
    } else {
      assert line[0] == text[0] && text[0] in text;
      assert line[1..] == text[1..] + ([QUOTE] + rest);
      FirstQuote(text[1..], rest);
    }
  }

  /** An escaped quote between quotations stands for itself. */
  lemma EscapedQuoteReads(rest: string, word: string)
    ensures Words([BACKSLASH, QUOTE] + rest, Some(word)) == Words(rest, Some(word + [QUOTE]))
  {
    var line := [BACKSLASH, QUOTE] + rest;
    assert line[0] == BACKSLASH && line[1] == QUOTE && line[2..] == rest;
  }

  /** How an argument with a quote in it is written, up to that quote. */
  lemma EscapedShape(before: string, after: string, rest: string)
    requires QUOTE !in before
    ensures var tail := [QUOTE] + (Escape(after) + ([QUOTE] + rest));
            Escape(before + ([QUOTE] + after)) + ([QUOTE] + rest) == before + ([QUOTE] + ([BACKSLASH, QUOTE] + tail))
  {
    EscapeSplits(before, [QUOTE] + after);
    EscapeNothing(before);
    EscapedQuote(after);
    FiveParts(before, Escape(after), [QUOTE] + rest);
  }

  lemma EscapedQuote(after: string)
    ensures Escape([QUOTE] + after) == [QUOTE, BACKSLASH, QUOTE, QUOTE] + Escape(after)
  {
    assert ([QUOTE] + after)[0] == QUOTE && ([QUOTE] + after)[1..] == after;
  }

  lemma FiveParts(before: string, after: string, rest: string)
    ensures (before + ([QUOTE, BACKSLASH, QUOTE, QUOTE] + after)) + rest
            == before + ([QUOTE] + ([BACKSLASH, QUOTE] + ([QUOTE] + (after + rest))))
  {}

  /** Reading up to and over the first quote inside. */
  lemma OverOneQuote(before: string, after: string, rest: string, word: Option<string>)
    requires QUOTE !in before
    ensures Words([QUOTE] + (Escape(before + ([QUOTE] + after)) + ([QUOTE] + rest)), word)
            == Words([QUOTE] + (Escape(after) + ([QUOTE] + rest)), Some((So(word) + before) + [QUOTE]))
  {
    hide Words;
    hide Escape;
    var tail := [QUOTE] + (Escape(after) + ([QUOTE] + rest));
    EscapedShape(before, after, rest);
    QuotationReads(before, [BACKSLASH, QUOTE] + tail, word);
    EscapedQuoteReads(tail, So(word) + before);
  }

  lemma Joins(word: string, before: string, after: string)
    ensures ((word + before) + [QUOTE]) + after == word + (before + ([QUOTE] + after))
  {}

  lemma {:induction false} QuotedReads(argument: string, rest: string, word: Option<string>)
    ensures Words([QUOTE] + (Escape(argument) + ([QUOTE] + rest)), word) == Words(rest, Some(So(word) + argument))
    decreases |argument|
  {
    hide Words;
    hide Escape;
    match Closing(argument)
    case None =>
      EscapeNothing(argument);
      QuotationReads(argument, rest, word);
    case Some(n) =>
      var before, after := argument[..n], argument[n + 1..];
      SplitAtQuote(argument, n);
      OverOneQuote(before, after, rest, word);
      QuotedReads(after, rest, Some((So(word) + before) + [QUOTE]));
      Joins(So(word), before, after);
  }

  lemma SplitAtQuote(argument: string, n: nat)
    requires n < |argument| && argument[n] == QUOTE
    ensures argument == argument[..n] + ([QUOTE] + argument[n + 1..])
  {}

  lemma RenderReads(argument: string, rest: string)
    ensures Words(Render(argument) + rest, None) == Words(rest, Some(argument))
  {
    hide Words;
    hide Escape;
    if argument != [] && AllPlain(argument) {
      PlainReads(argument, rest, None);
      assert [] + argument == argument;
    } else {
      assert Render(argument) + rest == [QUOTE] + (Escape(argument) + ([QUOTE] + rest));
      QuotedReads(argument, rest, None);
      assert [] + argument == argument;
    }
  }

  /** Reading the rendered command line gives back the argument vector, whatever the arguments:
      empty ones, ones made of quotes, ones with blanks or newlines. */
  lemma {:induction false} CommandLineReads(argv: seq<string>)
    ensures Words(CommandLine(argv), None) == Some(argv)
    decreases |argv|
  {
    hide Render;
    if argv == [] {
    } else if |argv| == 1 {
      RenderReads(argv[0], []);
      assert Render(argv[0]) + [] == Render(argv[0]);
      assert argv == [argv[0]];
    } else {
      var rest := [' '] + CommandLine(argv[1..]);
      RenderReads(argv[0], rest);
      assert rest[0] == ' ' && rest[1..] == CommandLine(argv[1..]);
      CommandLineReads(argv[1..]);
      assert argv == [argv[0]] + argv[1..];
    }
  }

  /** Only an argument of letters, digits and nine harmless marks is shown bare; every other stands
      between single quotes. */
  lemma OnlyPlainIsBare(argument: string)
    ensures var shown := Render(argument);
            if argument != "" && forall i | 0 <= i < |argument| ::
                 var c := argument[i];
                 'a' <= c <= 'z' || 'A' <= c <= 'Z' || '0' <= c <= '9' || c in "-_./=:+@,"
            then shown == argument
            else |shown| >= 2 && shown[0] == '\'' && shown[|shown| - 1] == '\'' && shown != argument
  {
    forall c: char
      ensures Plain(c) <==> 'a' <= c <= 'z' || 'A' <= c <= 'Z' || '0' <= c <= '9' || c in "-_./=:+@,"
    {
    }
    EscapeIsLonger(argument);
  }

  lemma {:induction false} EscapeIsLonger(argument: string)
    ensures |Escape(argument)| >= |argument|
  {
    if argument == "" {
    } else {
      EscapeIsLonger(argument[1..]);
    }
  }

  /** So no two argument vectors look alike in a receipt. */
  lemma CommandLineInjective(a: seq<string>, b: seq<string>)
    requires CommandLine(a) == CommandLine(b)
    ensures a == b
  {
    CommandLineReads(a);
    CommandLineReads(b);
  }
}
