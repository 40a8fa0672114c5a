/** The argv printer of the approval page (review.go) and the reading of its output by a shell. */
module ShellWords {
  import opened Prelude

  /** The characters shellQuote leaves bare. */
  predicate IsBare(c: char) {
    c == '_' || c == '-' || c == '.' || c == '/' || c == ':' ||
    'a' <= c <= 'z' || 'A' <= c <= 'Z' || '0' <= c <= '9'
  }

  function EscapeQuotes(s: string): string {
    if s == "" then ""
    else (if s[0] == '\'' then "'\\''" else [s[0]]) + EscapeQuotes(s[1..])
  }

  function ShellQuote(s: string): string {
    if s == "" then "''"
    else if forall i :: 0 <= i < |s| ==> IsBare(s[i]) then s
    else "'" + EscapeQuotes(s) + "'"
  }

  function JoinWords(words: seq<string>): string {
    if words == [] then ""
    else if |words| == 1 then words[0]
    else words[0] + " " + JoinWords(words[1..])
  }

  function QuoteAll(argv: seq<string>): seq<string> {
    seq(|argv|, i requires 0 <= i < |argv| => ShellQuote(argv[i]))
  }

  method ShellJoin(argv: seq<string>) returns (line: string)
    ensures line == JoinWords(QuoteAll(argv))
    ensures Split(line) == Some(argv)
  {
    var out := new string[|argv|];
    for i := 0 to |argv|
      invariant forall k :: 0 <= k < i ==> out[k] == ShellQuote(argv[k])
    {
      out[i] := ShellQuote(argv[i]);
    }
    assert out[..] == QuoteAll(argv);
    line := JoinWords(out[..]);
    SplitJoinRoundTrip(argv);
  }

  // ----- The reader: the Shell Command Language, IEEE Std 1003.1-2017 -----

  /** Where the reader stands: outside quotes, after a backslash (section 2.2.1), or inside
      single quotes (section 2.2.2). */
  datatype Mode = Unquoted | Escaped | SingleQuoted

  /** Characters that, unquoted, mean something other than themselves (section 2.2). */
  predicate IsSpecial(c: char) {
    c in "|&;<>()$`\"*?[#~=%\n"
  }

  predicate IsBlank(c: char) {
    c == ' ' || c == '\t'
  }

  function Text(word: Option<string>): string {
    if word.Some? then word.value else ""
  }

  /** Token recognition (section 2.3) restricted to plain text, backslash and single quotes.
      `word` is the token being collected, if one has begun; None means that `s` ends inside a
      quotation or needs an unquoted special character interpreted. */
  function Scan(s: string, mode: Mode, word: Option<string>): Option<seq<string>>
    decreases |s|
  {
    if s == "" then
      if mode != Unquoted then None
      else Some(if word.Some? then [word.value] else [])
    else
      var c, rest := s[0], s[1..];
      match mode
      case Unquoted =>
        if IsBlank(c) then
          var words := Scan(rest, Unquoted, None);
          if word.Some? && words.Some? then Some([word.value] + words.value) else words
        else if c == '\'' then Scan(rest, SingleQuoted, Some(Text(word)))
        else if c == '\\' then Scan(rest, Escaped, Some(Text(word)))
        else if IsSpecial(c) then None
        else Scan(rest, Unquoted, Some(Text(word) + [c]))
      case Escaped =>
        // A backslash before a newline is a line continuation and leaves nothing behind.
        Scan(rest, Unquoted, if c == '\n' then word else Some(Text(word) + [c]))
      case SingleQuoted =>
        if c == '\'' then Scan(rest, Unquoted, word)
        else Scan(rest, SingleQuoted, Some(Text(word) + [c]))
  }

  function Split(line: string): Option<seq<string>> {
    Scan(line, Unquoted, None)
  }

  // ----- Reading back what was printed -----

  lemma {:induction false} ScanBare(a: string, rest: string, word: Option<string>)
    requires a != "" || word.Some?
    requires forall i :: 0 <= i < |a| ==> IsBare(a[i])
    ensures Scan(a + rest, Unquoted, word) == Scan(rest, Unquoted, Some(Text(word) + a))
  {
    if a == "" {
      assert a + rest == rest && Text(word) + a == Text(word);
    } else {
      assert (a + rest)[0] == a[0] && (a + rest)[1..] == a[1..] + rest;
      ScanBare(a[1..], rest, Some(Text(word) + [a[0]]));
      assert Text(word) + [a[0]] + a[1..] == Text(word) + a;
    }
  }

  lemma {:induction false} ScanEscaped(a: string, rest: string, word: string)
    ensures Scan(EscapeQuotes(a) + "'" + rest, SingleQuoted, Some(word)) == Scan(rest, Unquoted, Some(word + a))
  {
    var tail := if a == "" then rest else EscapeQuotes(a[1..]) + "'" + rest;
    if a == "" {
      assert EscapeQuotes(a) + "'" + rest == "'" + rest;
      assert ("'" + rest)[1..] == rest && word + a == word;
    } else if a[0] == '\'' {
      assert EscapeQuotes(a) + "'" + rest == "'\\''" + tail;
      assert ("'\\''" + tail)[1..] == "\\''" + tail;
      assert ("\\''" + tail)[1..] == "''" + tail;
      assert ("''" + tail)[1..] == "'" + tail;
      assert ("'" + tail)[1..] == tail;
      calc {
        Scan("'\\''" + tail, SingleQuoted, Some(word));
        Scan("\\''" + tail, Unquoted, Some(word));
        Scan("''" + tail, Escaped, Some(word));
        Scan("'" + tail, Unquoted, Some(word + [a[0]]));
        Scan(tail, SingleQuoted, Some(word + [a[0]]));
      }
      ScanEscaped(a[1..], rest, word + [a[0]]);
      assert word + [a[0]] + a[1..] == word + a;
    } else {
      assert EscapeQuotes(a) + "'" + rest == [a[0]] + tail;
      assert ([a[0]] + tail)[1..] == tail;
      ScanEscaped(a[1..], rest, word + [a[0]]);
      assert word + [a[0]] + a[1..] == word + a;
    }
  }

  lemma ScanInQuotes(a: string, rest: string)
    ensures Scan("'" + EscapeQuotes(a) + "'" + rest, Unquoted, None) == Scan(rest, Unquoted, Some(a))
  {
    hide ShellQuote;
    var tail := EscapeQuotes(a) + "'" + rest;
    assert "'" + EscapeQuotes(a) + "'" + rest == "'" + tail;
    assert ("'" + tail)[1..] == tail;
    ScanEscaped(a, rest, "");
    assert "" + a == a;
  }

  lemma ScanQuoted(a: string, rest: string)
    ensures Scan(ShellQuote(a) + rest, Unquoted, None) == Scan(rest, Unquoted, Some(a))
  {
    hide Scan;
    if a == "" {
      assert EscapeQuotes("") == "" && "'" + "" + "'" == "''";
      ScanInQuotes(a, rest);
    } else if forall i :: 0 <= i < |a| ==> IsBare(a[i]) {
      ScanBare(a, rest, None);
      assert "" + a == a;
    } else {
      ScanInQuotes(a, rest);
    }
  }

  /** A printed word, a blank, and more. */
  lemma ScanNext(a: string, rest: string)
    ensures Scan(ShellQuote(a) + " " + rest, Unquoted, None)
         == (var words := Scan(rest, Unquoted, None); if words.Some? then Some([a] + words.value) else None)
  {
    hide ShellQuote;
    assert ShellQuote(a) + " " + rest == ShellQuote(a) + (" " + rest);
    ScanQuoted(a, " " + rest);
    assert (" " + rest)[1..] == rest;
  }

  /** Whatever the tokens hold, a shell reading the printed line recovers exactly them. */
  lemma {:induction false} SplitJoinRoundTrip(argv: seq<string>)
    ensures Split(JoinWords(QuoteAll(argv))) == Some(argv)
  {
    hide ShellQuote;
    if |argv| == 1 {
      assert QuoteAll(argv) == [ShellQuote(argv[0])];
      ScanQuoted(argv[0], "");
      assert ShellQuote(argv[0]) + "" == ShellQuote(argv[0]) && argv == [argv[0]];
    } else if argv != [] {
      var rest := QuoteAll(argv[1..]);
      assert QuoteAll(argv)[1..] == rest;
      ScanNext(argv[0], JoinWords(rest));
      SplitJoinRoundTrip(argv[1..]);
      assert [argv[0]] + argv[1..] == argv;
    }
  }

  /** So no two argument vectors look alike to the reviewer. */
  lemma JoinIsInjective(a: seq<string>, b: seq<string>)
    requires JoinWords(QuoteAll(a)) == JoinWords(QuoteAll(b))
    ensures a == b
  {
    SplitJoinRoundTrip(a);
    SplitJoinRoundTrip(b);
  }
}
