/** String helpers shared by the script builders and the backend routes. */
module Text {

  /** One ASCII character upper-cased, as `str.upper()` does for a-z. */
  function UpperChar(c: char): (u: char)
    ensures 'a' <= c <= 'z' ==> u as int == c as int - 32
    ensures !('a' <= c <= 'z') ==> u == c
  {
    if 'a' <= c <= 'z' then (c as int - 32) as char else c
  }

  /** `s.upper()` restricted to ASCII letters. */
  function Upper(s: string): (u: string)
    ensures |u| == |s|
    ensures forall i | 0 <= i < |s| :: u[i] == UpperChar(s[i])
  {
    seq(|s|, i requires 0 <= i < |s| => UpperChar(s[i]))
  }

  /** Upper-casing is idempotent: an id upper-cased twice is the id upper-cased once. */
  lemma UpperIdempotent(s: string)
    ensures Upper(Upper(s)) == Upper(s)
  {
  }

  /** `sep.join(parts)`. */
  function Join(sep: string, parts: seq<string>): string {
    if parts == [] then ""
    else if |parts| == 1 then parts[0]
    else parts[0] + sep + Join(sep, parts[1..])
  }

  /** The text of `lines` when every line is written followed by a newline. */
  function Terminated(lines: seq<string>): string {
    if lines == [] then "" else lines[0] + "\n" + Terminated(lines[1..])
  }

  /** Writing two blocks of lines one after the other writes their concatenation. */
  lemma {:induction false} TerminatedAppend(a: seq<string>, b: seq<string>)
    ensures Terminated(a + b) == Terminated(a) + Terminated(b)
  {
    if a == [] {
      assert a + b == b;
    } else {
      assert (a + b)[1..] == a[1..] + b;
      TerminatedAppend(a[1..], b);
    }
  }

  /** Appending one more line to a terminated text. */
  lemma TerminatedSnoc(a: seq<string>, line: string)
    ensures Terminated(a + [line]) == Terminated(a) + line + "\n"
  {
    TerminatedAppend(a, [line]);
    assert Terminated([line]) == line + "\n" + Terminated([]);
  }

  /** Appending two more lines to a terminated text. */
  lemma TerminatedSnoc2(a: seq<string>, x: string, y: string)
    ensures Terminated(a + [x, y]) == Terminated(a) + x + "\n" + y + "\n"
  {
    TerminatedSnoc(a, x);
    TerminatedSnoc(a + [x], y);
    assert a + [x] + [y] == a + [x, y];
  }

  /** Appending a blank line and a heading, as `"\n# heading\n"` does. */
  lemma TerminatedBlankThen(a: seq<string>, heading: string)
    ensures Terminated(a + ["", heading]) == Terminated(a) + "\n" + heading + "\n"
  {
    TerminatedSnoc2(a, "", heading);
    assert Terminated(a) + "" == Terminated(a);
  }

  /** The lines of a newline-separated text, the last one without a newline. */
  function Lines(lines: seq<string>): string
    requires lines != []
  {
    Terminated(lines[..|lines| - 1]) + lines[|lines| - 1]
  }

  /** Joining with a newline is writing all lines but the last one terminated. */
  lemma {:induction false} JoinIsLines(lines: seq<string>)
    requires lines != []
    ensures Join("\n", lines) == Lines(lines)
  {
    if |lines| > 1 {
      JoinIsLines(lines[1..]);
      assert lines[1..][..|lines[1..]| - 1] == lines[..|lines| - 1][1..];
    }
  }
}
