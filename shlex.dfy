/** Shell quoting, as Python's `shlex.quote` does it, and the POSIX shell word
    splitting that undoes it.

    The generator passes the nested `arecord`, `espeak` and `aplay` command
    lines and the porcupine, pocketsphinx, kaldi and intent graph paths
    through `Quote`. The snowboy model paths, the pyaudio device index, the
    site id and the broker host are written as they are. `ShellSplit` is the
    POSIX shell word splitting, for the part of the shell language that `Quote`
    produces; the lemmas at the end show that this splitting gives back each
    quoted text as one word. */
module Shlex {
  import opened Results
  import opened PyStrings

  /** The characters `shlex.quote` leaves alone: ASCII letters and digits,
      `_`, and `@%+=:,./-`. */
  predicate IsSafeChar(c: char)
  {
    || 'a' <= c <= 'z'
    || 'A' <= c <= 'Z'
    || '0' <= c <= '9'
    || c == '_' || c == '@' || c == '%' || c == '+' || c == '='
    || c == ':' || c == ',' || c == '.' || c == '/' || c == '-'
  }

  predicate IsSafeWord(s: string)
  {
    forall k :: 0 <= k < |s| ==> IsSafeChar(s[k])
  }

  /** Every single quote becomes `'"'"'`: close the single-quoted text, put a
      single quote inside double quotes, and open single quotes again. */
  function Escape(s: string): string
  {
    if s == [] then []
    else (if s[0] == '\'' then "'\"'\"'" else [s[0]]) + Escape(s[1..])
  }

  /** `shlex.quote(s)`: `''` for the empty string, the string itself when
      every character is safe, and otherwise the string in single quotes
      with its own single quotes escaped. */
  function Quote(s: string): string
  {
    if s == "" then "''"
    else if IsSafeWord(s) then s
    else "'" + Escape(s) + "'"
  }

  datatype Mode = Unquoted | SingleQuoted | DoubleQuoted

  /** Where the reader stands: which quotes are open, the word being read
      (if one has started) and the words already finished. */
  datatype Reader = Reader(mode: Mode, word: Option<string>, words: seq<string>)

  function Text(word: Option<string>): string
  {
    if word.Some? then word.value else ""
  }

  /** The words read so far, the one being read included. */
  function Finished(r: Reader): seq<string>
  {
    if r.word.Some? then r.words + [r.word.value] else r.words
  }

  /** The reader after one more character, for the subset of the shell
      language that `Quote` produces: words separated by spaces and made of
      safe characters, single-quoted text, and double-quoted text without
      `\`, `$` or a backquote. Anything outside that subset is refused
      (`None`). */
  function Step(c: char, r: Reader): Option<Reader>
  {
    match r.mode
    case Unquoted =>
      if c == ' ' then Some(Reader(Unquoted, None, Finished(r)))
      else if c == '\'' then Some(r.(mode := SingleQuoted, word := Some(Text(r.word))))
      else if c == '"' then Some(r.(mode := DoubleQuoted, word := Some(Text(r.word))))
      else if IsSafeChar(c) then Some(r.(word := Some(Text(r.word) + [c])))
      else None
    case SingleQuoted =>
      if c == '\'' then Some(r.(mode := Unquoted))
      else Some(r.(word := Some(Text(r.word) + [c])))
    case DoubleQuoted =>
      if c == '"' then Some(r.(mode := Unquoted))
      else if c == '\\' || c == '$' || c == '`' then None
      else Some(r.(word := Some(Text(r.word) + [c])))
  }

  /** Reads the rest of a line; a quote left open is refused. */
  function Lex(s: string, r: Reader): Option<seq<string>>
    decreases |s|
  {
    if s == [] then
      if r.mode != Unquoted then None else Some(Finished(r))
    else
      match Step(s[0], r)
      case None => None
      case Some(next) => Lex(s[1..], next)
  }

  /** The words of a command line, as a POSIX shell splits it. */
  function ShellSplit(line: string): Option<seq<string>>
  {
    Lex(line, Reader(Unquoted, None, []))
  }

  /** Reading one character, then the rest. */
  lemma LexCons(c: char, rest: string, r: Reader, next: Reader)
    requires Step(c, r) == Some(next)
    ensures Lex([c] + rest, r) == Lex(rest, next)
  {
    assert ([c] + rest)[1..] == rest;
  }

  /** Extends the word being read. */
  function Grow(r: Reader, t: string): Reader
  {
    r.(word := Some(Text(r.word) + t))
  }

  /** A run of safe characters extends the word being read. */
  lemma {:induction false} LexSafeRun(a: string, rest: string, r: Reader)
    requires r.mode == Unquoted
    requires a != [] && IsSafeWord(a)
    ensures Lex(a + rest, r) == Lex(rest, Grow(r, a))
  {
    var r1 := Grow(r, [a[0]]);
    assert Step(a[0], r) == Some(r1) by {
      assert IsSafeChar(a[0]);
    }
    assert a + rest == [a[0]] + (a[1..] + rest);
    LexCons(a[0], a[1..] + rest, r, r1);
    if |a| == 1 {
      assert a[1..] + rest == rest;
      assert r1 == Grow(r, a) by {
        assert [a[0]] == a;
      }
    } else {
      LexSafeRun(a[1..], rest, r1);
      assert Grow(r1, a[1..]) == Grow(r, a) by {
        assert Text(r1.word) + a[1..] == Text(r.word) + a;
      }
    }
  }

  /** Inside single quotes, `'"'"'` reads as one single quote and leaves the
      single quotes open. */
  lemma LexEscapedQuote(tail: string, r: Reader)
    requires r.mode == SingleQuoted && r.word.Some?
    ensures Lex("'\"'\"'" + tail, r) == Lex(tail, Grow(r, "'"))
  {
    var closed := r.(mode := Unquoted);
    var doubled := r.(mode := DoubleQuoted);
    var grown := Grow(r, "'");
    assert "'\"'\"'" + tail == ['\''] + (['"'] + (['\''] + (['"'] + (['\''] + tail))));
    LexCons('\'', ['"'] + (['\''] + (['"'] + (['\''] + tail))), r, closed);
    LexCons('"', ['\''] + (['"'] + (['\''] + tail)), closed, doubled);
    LexCons('\'', ['"'] + (['\''] + tail), doubled, grown.(mode := DoubleQuoted));
    LexCons('"', ['\''] + tail, grown.(mode := DoubleQuoted), grown.(mode := Unquoted));
    LexCons('\'', tail, grown.(mode := Unquoted), grown);
  }

  /** Inside single quotes, the escaped text reads back as the original text,
      and the closing quote ends the quoted part. */
  lemma {:induction false} LexEscaped(s: string, rest: string, r: Reader)
    requires r.mode == SingleQuoted && r.word.Some?
    ensures Lex(Escape(s) + "'" + rest, r) == Lex(rest, Grow(r, s).(mode := Unquoted))
  {
    if s == [] {
      assert Escape(s) + "'" + rest == ['\''] + rest;
      LexCons('\'', rest, r, r.(mode := Unquoted));
      assert Text(r.word) + s == Text(r.word);
    } else {
      var r1 := Grow(r, [s[0]]);
      var tail := Escape(s[1..]) + "'" + rest;
      assert Lex(tail, r1) == Lex(rest, Grow(r, s).(mode := Unquoted)) by {
        LexEscaped(s[1..], rest, r1);
        assert Text(r1.word) + s[1..] == Text(r.word) + s;
      }
      if s[0] == '\'' {
        assert Escape(s) + "'" + rest == "'\"'\"'" + tail;
        LexEscapedQuote(tail, r);
        assert Grow(r, "'") == r1;
      } else {
        assert Escape(s) + "'" + rest == [s[0]] + tail;
        LexCons(s[0], tail, r, r1);
      }
    }
  }

  /** A quoted word reads back as the original text, whatever follows it. */
  lemma QuoteLex(w: string, rest: string, r: Reader)
    requires r.mode == Unquoted
    ensures Lex(Quote(w) + rest, r) == Lex(rest, Grow(r, w))
  {
    var quoting := r.(mode := SingleQuoted, word := Some(Text(r.word)));
    if w == "" {
      assert Quote(w) + rest == ['\''] + (['\''] + rest);
      LexCons('\'', ['\''] + rest, r, quoting);
      LexCons('\'', rest, quoting, quoting.(mode := Unquoted));
      assert Text(r.word) + w == Text(r.word);
    } else if IsSafeWord(w) {
      LexSafeRun(w, rest, r);
    } else {
      assert Quote(w) + rest == ['\''] + (Escape(w) + "'" + rest);
      LexCons('\'', Escape(w) + "'" + rest, r, quoting);
      LexEscaped(w, rest, quoting);
    }
  }

  /** `shlex.quote` makes any text one shell word: splitting the quoted text
      gives back exactly the original, the empty string included. */
  lemma QuoteIsOneWord(w: string)
    ensures ShellSplit(Quote(w)) == Some([w])
  {
    var r := Reader(Unquoted, None, []);
    QuoteLex(w, "", r);
    assert Quote(w) + "" == Quote(w);
    assert Text(r.word) + w == w;
    assert Finished(Grow(r, w)) == [w];
  }

  /** A non-empty word of safe characters is left as it is by `Quote`, so
      fixed flags and plain numbers pass through the round trip below. */
  lemma QuoteSafeWord(w: string)
    requires w != "" && IsSafeWord(w)
    ensures Quote(w) == w
  {
  }

  /** `arg` reads as the word `w`, whatever follows it and whatever words
      were read before it. */
  ghost predicate ReadsAs(arg: string, w: string)
  {
    forall rest: string, done: seq<string> ::
      Lex(arg + rest, Reader(Unquoted, None, done)) == Lex(rest, Reader(Unquoted, Some(w), done))
  }

  lemma QuoteReadsAs(w: string)
    ensures ReadsAs(Quote(w), w)
  {
    forall rest: string, done: seq<string>
      ensures Lex(Quote(w) + rest, Reader(Unquoted, None, done)) == Lex(rest, Reader(Unquoted, Some(w), done))
    {
      var r := Reader(Unquoted, None, done);
      QuoteLex(w, rest, r);
      assert Text(r.word) + w == w;
    }
  }

  /** Words joined with single spaces, read after some finished words, add
      exactly those words. */
  lemma {:induction false} LexWords(args: seq<string>, words: seq<string>, done: seq<string>)
    requires |args| == |words| >= 1
    requires forall i :: 0 <= i < |args| ==> ReadsAs(args[i], words[i])
    ensures Lex(Join(args, " "), Reader(Unquoted, None, done)) == Some(done + words)
  {
    assert ReadsAs(args[0], words[0]);
    if |args| == 1 {
      assert Lex(args[0] + "", Reader(Unquoted, None, done)) == Lex("", Reader(Unquoted, Some(words[0]), done));
      assert args[0] + "" == Join(args, " ");
      assert words == [words[0]];
    } else {
      var tail := Join(args[1..], " ");
      assert Join(args, " ") == args[0] + ([' '] + tail);
      assert Lex(args[0] + ([' '] + tail), Reader(Unquoted, None, done))
          == Lex([' '] + tail, Reader(Unquoted, Some(words[0]), done));
      LexCons(' ', tail, Reader(Unquoted, Some(words[0]), done), Reader(Unquoted, None, done + [words[0]]));
      assert forall i :: 0 <= i < |args[1..]| ==> ReadsAs(args[1..][i], words[1..][i]) by {
        forall i | 0 <= i < |args[1..]|
          ensures ReadsAs(args[1..][i], words[1..][i])
        {
          assert args[1..][i] == args[i + 1] && words[1..][i] == words[i + 1];
        }
      }
      LexWords(args[1..], words[1..], done + [words[0]]);
      assert done + [words[0]] + words[1..] == done + words;
    }
  }

  /** Joining quoted words with single spaces and splitting the line again
      gives back the words: the command line round trip. */
  lemma SplitQuotedWords(args: seq<string>, words: seq<string>)
    requires |args| == |words|
    requires forall i :: 0 <= i < |args| ==> args[i] == Quote(words[i])
    ensures ShellSplit(Join(args, " ")) == Some(words)
  {
    if args != [] {
      forall i | 0 <= i < |args|
        ensures ReadsAs(args[i], words[i])
      {
        QuoteReadsAs(words[i]);
      }
      LexWords(args, words, []);
      assert [] + words == words;
    }
  }
}
