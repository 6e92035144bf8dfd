/** `java.io.BufferedReader.readLine` over the characters of a response
    body, and the normalisation that re-joining its lines produces.

    A line ends at `'\n'`, at `'\r'`, or at `"\r\n"` (one terminator, not
    two); a final line without a terminator is still returned; after the
    last terminator there is no further, empty line; at the end of the
    input `readLine` returns null. */
module LineReader {
  import opened Base
  import opened Text

  /** One call of `readLine`: the line it returns (without its terminator)
      and the input still unread after it. */
  datatype LineRead = LineRead(line: string, rest: string)

  predicate IsTerminator(c: char) {
    c == '\n' || c == '\r'
  }

  predicate NoTerminator(s: string) {
    forall i :: 0 <= i < |s| ==> !IsTerminator(s[i])
  }

  /** `s` is the line `lr.line`, then one line terminator (or the end of
      the input), then `lr.rest`. A lone `'\r'` is a terminator only when
      no `'\n'` follows it, since `"\r\n"` is a single terminator. */
  predicate SplitsAs(s: string, lr: LineRead) {
    || (s == lr.line && lr.rest == [])
    || s == lr.line + "\n" + lr.rest
    || s == lr.line + "\r\n" + lr.rest
    || (s == lr.line + "\r" + lr.rest && !StartsWith(lr.rest, "\n"))
  }

  /** `BufferedReader.readLine`: null (`None`) exactly at the end of the
      input; otherwise the first line and the unread remainder. */
  function ReadLine(s: string): (r: Option<LineRead>)
    ensures r.None? <==> s == []
    ensures r.Some? ==> |r.value.rest| < |s|
    ensures r.Some? ==> NoTerminator(r.value.line) && SplitsAs(s, r.value)
  {
    if s == [] then None
    else if s[0] == '\n' then Some(LineRead([], s[1..]))
    else if s[0] == '\r' then
      if |s| > 1 && s[1] == '\n' then Some(LineRead([], s[2..])) else Some(LineRead([], s[1..]))
    else
      match ReadLine(s[1..])
      case None => Some(LineRead([s[0]], []))
      case Some(lr) =>
        assert s == [s[0]] + s[1..];
        Some(LineRead([s[0]] + lr.line, lr.rest))
  }

  /** `readLine` is the only way to cut a line off the input: any split of
      `s` into a terminator-free line, a terminator and a rest is the one
      `ReadLine` returns. */
  lemma {:induction false} ReadLineUnique(s: string, lr: LineRead)
    requires NoTerminator(lr.line) && SplitsAs(s, lr) && s != []
    ensures ReadLine(s) == Some(lr)
    decreases |s|
  {
    if lr.line == [] {
      if s == lr.line + "\r" + lr.rest && !StartsWith(lr.rest, "\n") {
        assert lr.rest == s[1..];
        assert |s| > 1 ==> s[1] != '\n' by {
          if |s| > 1 { assert lr.rest[..1] == [s[1]]; }
        }
      } else if s == lr.line + "\r\n" + lr.rest {
        assert s[2..] == lr.rest;
      } else if s == lr.line + "\n" + lr.rest {
        assert s[1..] == lr.rest;
      }
    } else {
      assert s[0] == lr.line[0];
      assert !IsTerminator(lr.line[0]);
      var tail := LineRead(lr.line[1..], lr.rest);
      assert lr.line == [lr.line[0]] + tail.line;
      if tail.line == [] && lr.rest == [] && s == lr.line {
        assert s[1..] == [];
      } else {
        assert SplitsAs(s[1..], tail) by {
          if s == lr.line {
            assert s[1..] == tail.line;
          } else if s == lr.line + "\n" + lr.rest {
            assert s[1..] == tail.line + "\n" + lr.rest;
          } else if s == lr.line + "\r\n" + lr.rest {
            assert s[1..] == tail.line + "\r\n" + lr.rest;
          } else {
            assert s[1..] == tail.line + "\r" + lr.rest;
          }
        }
        ReadLineUnique(s[1..], tail);
      }
    }
  }

  /** The lines `readLine` returns, one call after another, until it
      returns null. */
  function Lines(s: string): (lines: seq<string>)
    ensures s == [] <==> lines == []
    ensures forall k :: 0 <= k < |lines| ==> NoTerminator(lines[k])
    decreases |s|
  {
    match ReadLine(s)
    case None => []
    case Some(lr) => [lr.line] + Lines(lr.rest)
  }

  /** Every line followed by exactly one `"\n"`, concatenated: what
      appending `line` and `"\n"` to a `StringBuilder` for each line builds. */
  function AppendEach(lines: seq<string>): string {
    if lines == [] then "" else lines[0] + "\n" + AppendEach(lines[1..])
  }

  /** An independent description of the same text, character by character:
      `"\r\n"` and a lone `'\r'` both become `'\n'`; everything else is kept. */
  function CanonicalEol(s: string): (r: string)
    ensures |r| <= |s|
    ensures s != [] ==> r != []
    ensures forall i :: 0 <= i < |r| ==> r[i] != '\r'
  {
    if s == [] then []
    else if s[0] == '\r' && |s| > 1 && s[1] == '\n' then CanonicalEol(s[1..])
    else [if s[0] == '\r' then '\n' else s[0]] + CanonicalEol(s[1..])
  }

  /** The text with canonical line ends, plus a final `'\n'` when the text is
      not empty and does not already end in one. */
  function Normalized(s: string): string {
    var c := CanonicalEol(s);
    if c == [] || c[|c| - 1] == '\n' then c else c + "\n"
  }

  /** A line with no terminator in it is returned whole by `readLine` and
      kept as it is by `CanonicalEol`. */
  lemma UnterminatedLine(s: string)
    requires s != [] && NoTerminator(s)
    ensures ReadLine(s) == Some(LineRead(s, []))
    ensures CanonicalEol(s) == s
  {
  }

  /** One `readLine` step seen through `CanonicalEol`: when the input holds
      a terminator, its canonical form is the line, one `'\n'` and the
      canonical form of the rest. */
  lemma {:induction false} TerminatedLine(s: string)
    requires !NoTerminator(s)
    ensures ReadLine(s).Some?
    ensures CanonicalEol(s) == ReadLine(s).value.line + "\n" + CanonicalEol(ReadLine(s).value.rest)
    decreases |s|
  {
    if s[0] == '\n' {
      assert CanonicalEol(s) == "\n" + CanonicalEol(s[1..]);
    } else if s[0] == '\r' {
      if |s| > 1 && s[1] == '\n' {
        assert CanonicalEol(s) == CanonicalEol(s[1..]);
        assert CanonicalEol(s[1..]) == "\n" + CanonicalEol(s[1..][1..]);
        assert s[1..][1..] == s[2..];
      } else {
        assert CanonicalEol(s) == "\n" + CanonicalEol(s[1..]);
      }
    } else {
      assert !NoTerminator(s[1..]) by {
        var i :| 0 <= i < |s| && IsTerminator(s[i]);
        assert s[1..][i - 1] == s[i];
      }
      TerminatedLine(s[1..]);
      var tail := ReadLine(s[1..]).value;
      assert ReadLine(s).value == LineRead([s[0]] + tail.line, tail.rest);
      assert CanonicalEol(s) == [s[0]] + CanonicalEol(s[1..]);
    }
  }

  /** Re-joining the lines `readLine` returns, each followed by `"\n"`,
      yields the normalised text: line ends become `'\n'` and a body without
      a trailing line end gains one. */
  lemma {:induction false} AppendEachLinesIsNormalized(s: string)
    ensures AppendEach(Lines(s)) == Normalized(s)
    decreases |s|
  {
    if s != [] {
      if NoTerminator(s) {
        UnterminatedLine(s);
        assert Lines(s) == [s];
        assert AppendEach(Lines(s)) == s + "\n";
        assert s[|s| - 1] != '\n';
      } else {
        TerminatedLine(s);
        var lr := ReadLine(s).value;
        AppendEachLinesIsNormalized(lr.rest);
        assert Lines(s) == [lr.line] + Lines(lr.rest);
        assert AppendEach(Lines(s)) == lr.line + "\n" + AppendEach(Lines(lr.rest));
        var c := CanonicalEol(lr.rest);
        assert CanonicalEol(s) == lr.line + "\n" + c;
        if c != [] {
          assert (lr.line + "\n" + c)[|lr.line + "\n" + c| - 1] == c[|c| - 1];
          if c[|c| - 1] != '\n' {
            assert lr.line + "\n" + (c + "\n") == (lr.line + "\n" + c) + "\n";
          }
        }
      }
    }
  }

  /** Text without carriage returns keeps its characters under `CanonicalEol`. */
  lemma {:induction false} CanonicalEolKeepsPlainText(s: string)
    requires forall i :: 0 <= i < |s| ==> s[i] != '\r'
    ensures CanonicalEol(s) == s
  {
    if s != [] {
      CanonicalEolKeepsPlainText(s[1..]);
      assert s == [s[0]] + s[1..];
    }
  }

  /** Normalising twice is normalising once: the result contains no `'\r'`
      and, when not empty, already ends in `'\n'`. */
  lemma NormalizedIdempotent(s: string)
    ensures Normalized(Normalized(s)) == Normalized(s)
  {
    var n := Normalized(s);
    CanonicalEolKeepsPlainText(n);
  }
}
