/**
 POSIX single-quote escaping, proved against a tokeniser for the part of the shell command
 language it uses: blanks, backslash (section 2.2.1), single quotes (section 2.2.2) and
 token recognition (section 2.3). Anything else that is special when unquoted is refused
 by the tokeniser, so a successful tokenisation depends on no expansion or operator.
 */
module ShellQuote {
  import opened Wrappers
  import Strings

  // ---- Quoting ----

  /** Each single quote becomes: close the quote, an escaped quote, reopen. */
  function Escape(s: string): string { if s == "" then "" else EscapeChar(s[0]) + Escape(s[1..]) }

  function EscapeChar(c: char): string { if c == '\'' then "'\\''" else [c] }

  function Quote(s: string): string { "'" + Escape(s) + "'" }

  /** The space-joined list of quoted words. */
  function QuoteList(words: seq<string>): string {
    if words == [] then ""
    else if |words| == 1 then Quote(words[0])
    else Quote(words[0]) + " " + QuoteList(words[1..])
  }

  // ---- The shell's side ----

  predicate IsBlank(c: char) { c == ' ' || c == '\t' }

  /** Characters that mean something when unquoted, other than quotes, backslash and blanks. */
  predicate IsSpecial(c: char) {
    || c == '"' || c == '$' || c == '`' || c == '|' || c == '&' || c == ';' || c == '<' || c == '>'
    || c == '(' || c == ')' || c == '\n' || c == '#' || c == '*' || c == '?' || c == '[' || c == ']'
    || c == '{' || c == '}' || c == '~' || c == '=' || c == '!' || c == '\0'
  }

  function QuoteEnd(s: string): (n: nat)
    ensures n <= |s| && (n < |s| ==> s[n] == '\'') && forall i :: 0 <= i < n ==> s[i] != '\''
  {
    if s == "" || s[0] == '\'' then 0 else 1 + QuoteEnd(s[1..])
  }

  function Finish(inWord: bool, word: string): seq<string> { if inWord then [word] else [] }

  function Emit(first: seq<string>, rest: Option<seq<string>>): Option<seq<string>> {
    if rest.None? then None else Some(first + rest.value)
  }

  /** Split into words and remove quotes; `word` is the word read so far when `inWord`. */
  function Lex(s: string, inWord: bool, word: string): Option<seq<string>>
    decreases |s|
  {
    if s == "" then Some(Finish(inWord, word))
    else if s[0] == '\'' then
      var n := QuoteEnd(s[1..]);
      if n == |s[1..]| then None else Lex(s[n + 2..], true, word + s[1..n + 1])
    else if s[0] == '\\' then
      if |s| == 1 then None
      else if s[1] == '\n' then Lex(s[2..], inWord, word)
      else Lex(s[2..], true, word + [s[1]])
    else if IsBlank(s[0]) then Emit(Finish(inWord, word), Lex(s[1..], false, ""))
    else if IsSpecial(s[0]) then None
    else Lex(s[1..], true, word + [s[0]])
  }

  /** The words of a command line; text with a NUL cannot be passed at all. */
  function Tokenise(s: string): Option<seq<string>> {
    if '\0' in s then None else Lex(s, false, "")
  }

  // ---- Quoting is inverted ----

  lemma {:induction false} EscapePlain(s: string, tail: string)
    requires '\'' !in s
    ensures Escape(s) == s
    ensures QuoteEnd(s + "'" + tail) == |s|
  {
    var text := s + "'" + tail;
    if s != "" {
      EscapePlain(s[1..], tail);
      assert s[0] in s && text[1..] == s[1..] + "'" + tail;
    }
  }

  lemma {:induction false} EscapePrefix(a: string, b: string)
    requires '\'' !in a
    ensures Escape(a + b) == a + Escape(b)
  {
    if a == "" {
      assert a + b == b;
    } else {
      var s := a + b;
      assert a[0] in a && s[0] == a[0] && s[1..] == a[1..] + b;
      EscapePrefix(a[1..], b);
      var tail := a[1..] + Escape(b);
      assert Escape(s) == [a[0]] + tail;
      assert [a[0]] + a[1..] == a;
    }
  }

  /** A closed single-quoted span without inner quotes contributes its text literally. */
  lemma SpanLexes(span: string, rest: string, inWord: bool, word: string)
    requires '\'' !in span
    ensures Lex("'" + span + "'" + rest, inWord, word) == Lex(rest, true, word + span)
  {
    var s := "'" + span + "'" + rest;
    assert s[1..] == span + "'" + rest;
    EscapePlain(span, rest);
    assert s[1..|span| + 1] == span && s[|span| + 2..] == rest;
  }

  lemma EscapedQuoteLexes(rest: string, word: string)
    ensures Lex("\\'" + rest, true, word) == Lex(rest, true, word + "'")
  {
    Strings.Parts("\\'", rest);
  }

  /** Wherever a quoted string stands, reading it appends exactly the string to the current word. */
  lemma {:induction false} QuoteLexes(s: string, rest: string, inWord: bool, word: string)
    ensures Lex(Quote(s) + rest, inWord, word) == Lex(rest, true, word + s)
    decreases |s|
  {
    var n := QuoteEnd(s);
    if n == |s| {
      assert Quote(s) + rest == "'" + s + "'" + rest by { EscapePlain(s, ""); }
      SpanLexes(s, rest, inWord, word);
    } else {
      var a, b := s[..n], s[n + 1..];
      var tail := Quote(b) + rest;
      assert s == a + ("'" + b) by { SplitAt(s, n); }
      assert Quote(s) + rest == "'" + a + "'" + ("\\'" + tail) by { QuoteShape(a, b, rest); }
      SpanLexes(a, "\\'" + tail, inWord, word);
      EscapedQuoteLexes(tail, word + a);
      QuoteLexes(b, rest, true, word + a + "'");
      assert word + a + "'" + b == word + s by { WordShape(word, a, b); }
    }
  }

  lemma SplitAt(s: string, n: nat)
    requires n < |s| && s[n] == '\''
    ensures s == s[..n] + ("'" + s[n + 1..])
  {
  }

  lemma WordShape(word: string, a: string, b: string)
    ensures word + a + "'" + b == word + (a + ("'" + b))
  {
    Strings.Assoc(word + a, "'", b);
    Strings.Assoc(word, a, "'" + b);
  }

  lemma EscapeSplits(a: string, b: string)
    requires '\'' !in a
    ensures Escape(a + ("'" + b)) == a + ("'\\''" + Escape(b))
  {
    EscapePrefix(a, "'" + b);
    Strings.Parts("'", b);
  }

  lemma QuoteShape(a: string, b: string, rest: string)
    requires '\'' !in a
    ensures Quote(a + ("'" + b)) + rest == "'" + a + "'" + ("\\'" + (Quote(b) + rest))
  {
    EscapeSplits(a, b);
    SameText(a, Escape(b), rest);
  }

  lemma SameText(a: string, e: string, rest: string)
    ensures "'" + (a + ("'\\''" + e)) + "'" + rest == "'" + a + "'" + ("\\'" + ("'" + e + "'" + rest))
  {
    assert "'\\''" == "'" + "\\'" + "'";
  }

  lemma {:induction false} ListLexes(words: seq<string>)
    ensures Lex(QuoteList(words), false, "") == Some(words)
  {
    if words != [] {
      var w := words[0];
      assert "" + w == w;
      if |words| == 1 {
        QuoteLexes(w, "", false, "");
        assert Quote(w) + "" == Quote(w) && words == [w];
      } else {
        var rest := QuoteList(words[1..]);
        ListLexes(words[1..]);
        Strings.Assoc(Quote(w), " ", rest);
        QuoteLexes(w, " " + rest, false, "");
        Strings.Parts(" ", rest);
        assert [w] + words[1..] == words;
      }
    }
  }

  predicate NoNul(words: seq<string>) { forall i :: 0 <= i < |words| ==> '\0' !in words[i] }

  lemma {:induction false} EscapeNul(s: string)
    ensures '\0' in Escape(s) <==> '\0' in s
  {
    if s != "" {
      EscapeNul(s[1..]);
      assert s == [s[0]] + s[1..];
    }
  }

  lemma {:induction false} ListNul(words: seq<string>)
    ensures '\0' in QuoteList(words) <==> !NoNul(words)
  {
    if words != [] {
      EscapeNul(words[0]);
      ListNul(words[1..]);
      assert NoNul(words) <==> '\0' !in words[0] && NoNul(words[1..]);
    }
  }

  /** A space-joined list of quoted words tokenises back to exactly that list, for every list
      of strings without NUL (and for no list with one). */
  lemma QuoteListRoundTrip(words: seq<string>)
    ensures Tokenise(QuoteList(words)) == Some(words) <==> NoNul(words)
  {
    ListNul(words);
    ListLexes(words);
  }

  /** One quoted string is one word, empty or not. */
  lemma QuoteRoundTrip(s: string)
    ensures Tokenise(Quote(s)) == Some([s]) <==> '\0' !in s
  {
    QuoteListRoundTrip([s]);
    assert QuoteList([s]) == Quote(s);
    assert [s][0] == s;
  }

  predicate IsPlain(c: char) { !IsBlank(c) && !IsSpecial(c) && c != '\'' && c != '\\' }

  lemma {:induction false} PlainWordLexes(w: string, rest: string, inWord: bool, word: string)
    requires forall i :: 0 <= i < |w| ==> IsPlain(w[i])
    requires w != "" || inWord
    ensures Lex(w + " " + rest, inWord, word) == Emit([word + w], Lex(rest, false, ""))
    decreases |w|
  {
    var s := w + " " + rest;
    if w == "" {
      assert s[1..] == rest && word + w == word;
    } else {
      assert s[1..] == w[1..] + " " + rest;
      PlainWordLexes(w[1..], rest, true, word + [w[0]]);
      assert word + [w[0]] + w[1..] == word + w;
    }
  }

  /** The package command: its fixed words, then exactly the packages. */
  function InstallCommand(packages: seq<string>): string { "apk add --no-cache " + QuoteList(packages) }

  lemma InstallCommandTokens(packages: seq<string>)
    requires NoNul(packages)
    ensures Tokenise(InstallCommand(packages)) == Some(["apk", "add", "--no-cache"] + packages)
  {
    var list := QuoteList(packages);
    assert Lex(InstallCommand(packages), false, "") == Some(["apk", "add", "--no-cache"] + packages) by {
      ListLexes(packages);
      FixedWordsLex(list);
      EmitThrice(packages);
    }
    ListNul(packages);
    assert '\0' !in "apk add --no-cache ";
  }

  lemma EmitThrice(packages: seq<string>)
    ensures Emit(["apk"], Emit(["add"], Emit(["--no-cache"], Some(packages))))
            == Some(["apk", "add", "--no-cache"] + packages)
  {
    var rest := ["--no-cache"] + packages;
    assert ["apk"] + (["add"] + rest) == ["apk", "add", "--no-cache"] + packages;
  }

  predicate PlainWord(w: string) { w != "" && forall i :: 0 <= i < |w| ==> IsPlain(w[i]) }

  lemma FixedWords()
    ensures PlainWord("apk") && PlainWord("add") && PlainWord("--no-cache")
  {
  }

  lemma FixedShape(list: string)
    ensures "apk add --no-cache " + list == Before("apk", Before("add", Before("--no-cache", list)))
  {
    assert Before("--no-cache", list) == "--no-cache " + list;
    assert Before("add", "--no-cache " + list) == "add --no-cache " + list;
  }

  function Before(w: string, rest: string): string { w + " " + rest }

  lemma FixedWordsLex(list: string)
    ensures Lex("apk add --no-cache " + list, false, "")
            == Emit(["apk"], Emit(["add"], Emit(["--no-cache"], Lex(list, false, ""))))
  {
    FixedWords();
    FixedShape(list);
    ThreeWordsLex("apk", "add", "--no-cache", list);
  }

  lemma ThreeWordsLex(a: string, b: string, c: string, rest: string)
    requires PlainWord(a) && PlainWord(b) && PlainWord(c)
    ensures Lex(Before(a, Before(b, Before(c, rest))), false, "")
            == Emit([a], Emit([b], Emit([c], Lex(rest, false, ""))))
  {
    WordLexes(c, rest);
    WordLexes(b, Before(c, rest));
    WordLexes(a, Before(b, Before(c, rest)));
  }

  lemma WordLexes(w: string, rest: string)
    requires PlainWord(w)
    ensures Lex(Before(w, rest), false, "") == Emit([w], Lex(rest, false, ""))
  {
    PlainWordLexes(w, rest, false, "");
    assert "" + w == w;
  }
}
