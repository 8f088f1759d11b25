/** Desktop Entry `Exec` values as argument lists, without a shell (fomalhaut-session, exec.rs). */
module Exec {
  import opened Prelude

  datatype ExecParseError =
    | Empty
    | UnmatchedQuote
    | InvalidEscape
    | ReservedCharacter
    | UnsupportedFieldCode
    | InvalidExecutable

  datatype Parsed = Ok(args: seq<string>) | Err(error: ExecParseError)

  /** The parser between two characters: finished arguments, the current one, and where it stands in it. */
  datatype Lexer = Lexer(args: seq<string>, current: string, inQuotes: bool, started: bool, closed: bool) {
    function Add(c: char): Lexer {
      this.(current := current + [c], started := true)
    }

    function EndArgument(): Lexer {
      if started then Lexer(args + [current], "", inQuotes, false, false) else this
    }

    function Finish(): Parsed {
      if inQuotes then Err(UnmatchedQuote)
      else
        var all := if started then args + [current] else args;
        if all == [] then Err(Empty)
        else if all[0] == "" || '=' in all[0] || '\0' in all[0] then Err(InvalidExecutable)
        else Ok(all)
    }
  }

  const FRESH := Lexer([], "", false, false, false)

  predicate IsWhitespace(c: char) {
    c in [' ', '\t', '\n', '\r', '\U{0C}']
  }

  predicate IsReserved(c: char) {
    c in ['\'', '>', '<', '~', '|', '&', ';', '$', '*', '?', '#', '(', ')', '`']
  }

  /** The characters a backslash may escape inside quotes. */
  predicate IsEscapable(c: char) {
    c in ['"', '`', '$', '\\']
  }

  /** What the parser makes of one character and, for a field code or an escape, of those after it. */
  function Lex(input: string, l: Lexer): Parsed
    decreases |input|, 0
  {
    if input == "" then l.Finish()
    else
      var c, rest := input[0], input[1..];
      if l.closed && !IsWhitespace(c) then Err(ReservedCharacter)
      else if c == '"' && !l.inQuotes then
        if l.started then Err(ReservedCharacter) else Lex(rest, l.(inQuotes := true, started := true))
      else if c == '"' then Lex(rest, l.(inQuotes := false, closed := true))
      else if c == '\\' then
        if rest == "" then Err(InvalidEscape)
        else if l.inQuotes && !IsEscapable(rest[0]) then Err(InvalidEscape)
        else Push(rest[0], rest[1..], l)
      else if IsWhitespace(c) && !l.inQuotes then Lex(rest, l.EndArgument())
      else if !l.inQuotes && IsReserved(c) then Err(ReservedCharacter)
      else if (c == '`' || c == '$') && l.inQuotes then Err(ReservedCharacter)
      else Push(c, rest, l)
  }

  /** A percent sign must be doubled and stands for itself; NUL is refused. */
  function Push(c: char, rest: string, l: Lexer): Parsed
    decreases |rest|, 1
  {
    if c == '%' then
      if rest != "" && rest[0] == '%' then Lex(rest[1..], l.Add('%')) else Err(UnsupportedFieldCode)
    else if c == '\0' then Err(InvalidExecutable)
    else Lex(rest, l.Add(c))
  }

  function ParseExec(input: string): Parsed {
    Lex(input, FRESH)
  }

  // ---------------------------------------------------------------------------
  // The canonical quoting of the Desktop Entry Specification, section "The Exec key"

  function QuoteChar(c: char): string {
    if IsEscapable(c) then ['\\', c] else if c == '%' then "%%" else [c]
  }

  function QuoteBody(arg: string): string {
    if arg == "" then "" else QuoteChar(arg[0]) + QuoteBody(arg[1..])
  }

  function Quote(arg: string): string {
    "\"" + QuoteBody(arg) + "\""
  }

  /** Every argument quoted, separated by single spaces. */
  function QuoteAll(args: seq<string>): string {
    if args == [] then "" else if |args| == 1 then Quote(args[0]) else Quote(args[0]) + " " + QuoteAll(args[1..])
  }

  /** The argument lists an `Exec` value can denote. */
  predicate Denotable(args: seq<string>) {
    && args != []
    && args[0] != "" && '=' !in args[0]
    && NulFree(args)
  }

  /** Inside quotes, the quoted form of a text is read back as that text. */
  lemma {:induction false} LexBody(arg: string, rest: string, l: Lexer)
    requires l.inQuotes && l.started && !l.closed
    ensures Lex(QuoteBody(arg) + rest, l) ==
            if '\0' in arg then Err(InvalidExecutable) else Lex(rest, l.(current := l.current + arg))
    decreases |arg|
  {
    if arg == "" {
      assert QuoteBody(arg) + rest == rest && l.current + arg == l.current;
    } else {
      var c := arg[0];
      var tail := QuoteBody(arg[1..]) + rest;
      assert QuoteBody(arg) + rest == QuoteChar(c) + tail;
      assert arg == [c] + arg[1..];
      if c == '\0' {
        assert Lex(QuoteChar(c) + tail, l) == Err(InvalidExecutable);
      } else {
        LexChar(c, tail, l);
        LexBody(arg[1..], rest, l.Add(c));
        assert l.current + [c] + arg[1..] == l.current + arg;
      }
    }
  }

  lemma LexChar(c: char, tail: string, l: Lexer)
    requires l.inQuotes && l.started && !l.closed && c != '\0'
    ensures Lex(QuoteChar(c) + tail, l) == Lex(tail, l.Add(c))
  {
    var input := QuoteChar(c) + tail;
    if IsEscapable(c) {
      assert input[1..][0] == c && input[1..][1..] == tail;
      assert Lex(input, l) == Push(c, tail, l);
    } else if c == '%' {
      assert input[1..][0] == '%' && input[1..][1..] == tail;
      assert Lex(input, l) == Push('%', input[1..], l);
    } else {
      assert input[1..] == tail;
      assert Lex(input, l) == Push(c, tail, l);
    }
  }

  lemma LexQuoted(arg: string, rest: string, l: Lexer)
    requires !l.inQuotes && !l.started && !l.closed && l.current == ""
    ensures Lex(Quote(arg) + rest, l) ==
            if '\0' in arg then Err(InvalidExecutable)
            else Lex(rest, l.(current := arg, started := true, closed := true))
  {
    var open := l.(inQuotes := true, started := true);
    var input := Quote(arg) + rest;
    assert input[1..] == QuoteBody(arg) + ("\"" + rest);
    assert Lex(input, l) == Lex(input[1..], open);
    LexBody(arg, "\"" + rest, open);
    assert "" + arg == arg;
    assert ("\"" + rest)[1..] == rest;
  }

  predicate NulFree(args: seq<string>) {
    forall i :: 0 <= i < |args| ==> '\0' !in args[i]
  }

  lemma NulFreeSplits(args: seq<string>)
    requires args != []
    ensures NulFree(args) <==> '\0' !in args[0] && NulFree(args[1..])
  {
    if '\0' !in args[0] && NulFree(args[1..]) {
      forall i | 0 <= i < |args| ensures '\0' !in args[i] {
        assert i > 0 ==> args[i] == args[1..][i - 1];
      }
    }
  }

  /** One quoted argument with more behind it, up to where the next one starts. */
  lemma LexFirst(args: seq<string>, l: Lexer)
    requires |args| > 1 && !l.inQuotes && !l.started && !l.closed && l.current == ""
    ensures Lex(QuoteAll(args), l) ==
            if '\0' in args[0] then Err(InvalidExecutable)
            else Lex(QuoteAll(args[1..]), l.(args := l.args + [args[0]]))
  {
    var here := l.(current := args[0], started := true, closed := true);
    var tail := " " + QuoteAll(args[1..]);
    assert QuoteAll(args) == Quote(args[0]) + tail;
    LexQuoted(args[0], tail, l);
    assert tail[1..] == QuoteAll(args[1..]);
    assert Lex(tail, here) == Lex(tail[1..], here.EndArgument());
  }

  /** What parsing quoted arguments should make of them behind those already read. */
  function Denoted(args: seq<string>, l: Lexer): Parsed {
    if NulFree(args) then l.(args := l.args + args).Finish() else Err(InvalidExecutable)
  }

  lemma LexOnly(arg: string, l: Lexer)
    requires !l.inQuotes && !l.started && !l.closed && l.current == ""
    ensures Lex(QuoteAll([arg]), l) == Denoted([arg], l)
  {
    assert Quote(arg) + "" == QuoteAll([arg]);
    LexQuoted(arg, "", l);
  }

  lemma DenotedSplits(args: seq<string>, l: Lexer)
    requires args != []
    ensures Denoted(args, l) ==
            if '\0' in args[0] then Err(InvalidExecutable) else Denoted(args[1..], l.(args := l.args + [args[0]]))
  {
    NulFreeSplits(args);
    assert l.args + args == l.args + [args[0]] + args[1..];
  }

  lemma {:induction false} LexQuotedAll(args: seq<string>, l: Lexer)
    requires args != [] && !l.inQuotes && !l.started && !l.closed && l.current == ""
    ensures Lex(QuoteAll(args), l) == Denoted(args, l)
    decreases |args|
  {
    if |args| == 1 {
      assert args == [args[0]];
      LexOnly(args[0], l);
    } else {
      LexFirst(args, l);
      DenotedSplits(args, l);
      LexQuotedAll(args[1..], l.(args := l.args + [args[0]]));
    }
  }

  /** Quoting an argument list and parsing it gives the list back, exactly for the lists that can be denoted. */
  lemma QuotingIsInverted(args: seq<string>)
    ensures ParseExec(QuoteAll(args)) == Ok(args) <==> Denotable(args)
  {
    if args != [] {
      LexQuotedAll(args, FRESH);
      assert [] + args == args;
    }
  }

  // ---------------------------------------------------------------------------
  // What the parser accepts

  /** Characters gathered so far contain no NUL. */
  ghost predicate Clean(l: Lexer) {
    '\0' !in l.current && forall i :: 0 <= i < |l.args| ==> '\0' !in l.args[i]
  }

  lemma {:induction false} LexIsClean(input: string, l: Lexer)
    requires Clean(l)
    ensures var parsed := Lex(input, l); parsed.Ok? ==> Denotable(parsed.args)
    decreases |input|, 0
  {
    if input != "" {
      var c, rest := input[0], input[1..];
      if c == '"' {
        LexIsClean(rest, l.(inQuotes := true, started := true));
        LexIsClean(rest, l.(inQuotes := false, closed := true));
      } else if c == '\\' {
        if rest != "" {
          PushIsClean(rest[0], rest[1..], l);
        }
      } else {
        LexIsClean(rest, l.EndArgument());
        PushIsClean(c, rest, l);
      }
    }
  }

  lemma {:induction false} PushIsClean(c: char, rest: string, l: Lexer)
    requires Clean(l)
    ensures var parsed := Push(c, rest, l); parsed.Ok? ==> Denotable(parsed.args)
    decreases |rest|, 1
  {
    if c == '%' {
      if rest != "" {
        LexIsClean(rest[1..], l.Add('%'));
      }
    } else if c != '\0' {
      LexIsClean(rest, l.Add(c));
    }
  }

  /** Every accepted value denotes a list that its own canonical quoting denotes as well. */
  lemma ParsingIsCanonical(input: string)
    requires ParseExec(input).Ok?
    ensures Denotable(ParseExec(input).args)
    ensures ParseExec(QuoteAll(ParseExec(input).args)) == ParseExec(input)
  {
    LexIsClean(input, FRESH);
    QuotingIsInverted(ParseExec(input).args);
  }

  /** Without quotes or backslashes, nothing that a shell would interpret is ever accepted. */
  lemma {:induction false} BareReservedIsRefused(input: string, l: Lexer)
    requires !l.inQuotes && '"' !in input && '\\' !in input
    requires exists i :: 0 <= i < |input| && IsReserved(input[i])
    ensures Lex(input, l).Err?
    decreases |input|
  {
    var c, rest := input[0], input[1..];
    if !IsReserved(c) {
      assert exists i :: 0 <= i < |rest| && IsReserved(rest[i]) by {
        var i :| 0 <= i < |input| && IsReserved(input[i]);
        assert rest[i - 1] == input[i];
      }
      if c == '%' {
        if rest[0] == '%' {
          var i :| 0 <= i < |rest| && IsReserved(rest[i]);
          assert rest[1..][i - 1] == rest[i];
          BareReservedIsRefused(rest[1..], l.Add('%'));
        }
      } else {
        BareReservedIsRefused(rest, l.EndArgument());
        BareReservedIsRefused(rest, l.Add(c));
      }
    }
  }

  // ---------------------------------------------------------------------------
  // The loop

  /** Reads the characters from `i` on that one pushed character stands for. */
  method PushCharacter(c: char, input: string, i: nat, l: Lexer) returns (next: nat, after: Lexer, error: Option<ExecParseError>)
    requires i <= |input|
    ensures i <= next <= |input|
    ensures if error == None then Push(c, input[i..], l) == Lex(input[next..], after)
            else Push(c, input[i..], l) == Err(error.value)
  {
    next, after, error := i, l, None;
    if c == '%' {
      if i < |input| && input[i] == '%' {
        assert input[i..][1..] == input[i + 1..];
        next, after := i + 1, l.Add('%');
      } else {
        error := Some(UnsupportedFieldCode);
      }
    } else if c == '\0' {
      error := Some(InvalidExecutable);
    } else {
      after := l.Add(c);
    }
  }

  method Parse(input: string) returns (parsed: Parsed)
    ensures parsed == ParseExec(input)
  {
    var i, l := 0, FRESH;
    assert input[0..] == input;
    while i < |input|
      invariant 0 <= i <= |input|
      invariant Lex(input[i..], l) == ParseExec(input)
      decreases |input| - i
    {
      var c := input[i];
      assert input[i..][0] == c && input[i..][1..] == input[i + 1..];
      i := i + 1;
      if l.closed && !IsWhitespace(c) {
        return Err(ReservedCharacter);
      }
      if c == '"' && !l.inQuotes {
        if l.started {
          return Err(ReservedCharacter);
        }
        l := l.(inQuotes := true, started := true);
      } else if c == '"' {
        l := l.(inQuotes := false, closed := true);
      } else if c == '\\' {
        if i == |input| {
          return Err(InvalidEscape);
        }
        var escaped := input[i];
        assert input[i..][0] == escaped && input[i..][1..] == input[i + 1..];
        if l.inQuotes && !IsEscapable(escaped) {
          return Err(InvalidEscape);
        }
        var error;
        i, l, error := PushCharacter(escaped, input, i + 1, l);
        if error.Some? {
          return Err(error.value);
        }
      } else if IsWhitespace(c) && !l.inQuotes {
        l := l.EndArgument();
      } else if !l.inQuotes && IsReserved(c) {
        return Err(ReservedCharacter);
      } else if (c == '`' || c == '$') && l.inQuotes {
        return Err(ReservedCharacter);
      } else {
        var error;
        i, l, error := PushCharacter(c, input, i, l);
        if error.Some? {
          return Err(error.value);
        }
      }
    }
    assert input[i..] == "";
    return l.Finish();
  }
}
