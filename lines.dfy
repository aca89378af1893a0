/** Text made of lines: Python's `"\n".join(...)` and, as its inverse, a
    split at newlines. */
module Lines {

  /** `"\n".join(lines)`. */
  function Join(lines: seq<string>): string {
    if lines == [] then ""
    else if |lines| == 1 then lines[0]
    else lines[0] + "\n" + Join(lines[1..])
  }

  /** The lines of `s`: the maximal newline-free pieces between newlines
      (Python `s.split("\n")`). */
  function Split(s: string): (r: seq<string>)
    ensures |r| >= 1
  {
    if s == [] then [""]
    else
      var rest := Split(s[1..]);
      if s[0] == '\n' then [""] + rest else [[s[0]] + rest[0]] + rest[1..]
  }

  predicate NoNewline(s: string) {
    '\n' !in s
  }

  lemma NoNewlineConcat(a: string, b: string)
    requires NoNewline(a) && NoNewline(b)
    ensures NoNewline(a + b)
  {
    assert forall c :: c in a + b ==> c in a || c in b;
  }

  lemma {:induction false} SplitNoNewline(s: string)
    requires NoNewline(s)
    ensures Split(s) == [s]
  {
    if s != [] {
      SplitNoNewline(s[1..]);
      assert [s[0]] + s[1..] == s;
    }
  }

  lemma {:induction false} SplitAtNewline(a: string, b: string)
    requires NoNewline(a)
    ensures Split(a + "\n" + b) == [a] + Split(b)
  {
    var s := a + "\n" + b;
    if a == [] {
      assert s == "\n" + b;
      assert s[1..] == b;
    } else {
      assert s[1..] == a[1..] + "\n" + b;
      SplitAtNewline(a[1..], b);
      assert [a[0]] + a[1..] == a;
    }
  }

  /** Joining newline-free lines and splitting the text again gives back the
      lines one for one; in particular no line is lost or merged. */
  lemma {:induction false} SplitJoin(lines: seq<string>)
    requires |lines| >= 1
    requires forall i :: 0 <= i < |lines| ==> NoNewline(lines[i])
    ensures Split(Join(lines)) == lines
  {
    if |lines| == 1 {
      SplitNoNewline(lines[0]);
    } else {
      SplitJoin(lines[1..]);
      SplitAtNewline(lines[0], Join(lines[1..]));
      assert [lines[0]] + lines[1..] == lines;
    }
  }

  /** `"\n".join(a + b)` is the two joins with one newline between. */
  lemma {:induction false} JoinAppend(a: seq<string>, b: seq<string>)
    requires a != [] && b != []
    ensures Join(a + b) == Join(a) + "\n" + Join(b)
  {
    if |a| == 1 {
      assert (a + b)[1..] == b;
    } else {
      assert (a + b)[1..] == a[1..] + b;
      JoinAppend(a[1..], b);
    }
  }

  /** Text put before a join lands on the first line only. */
  lemma JoinPrefixFirst(p: string, lines: seq<string>)
    requires |lines| >= 1
    ensures p + Join(lines) == Join([p + lines[0]] + lines[1..])
  {
    var t := [p + lines[0]] + lines[1..];
    if |lines| > 1 {
      assert t[1..] == lines[1..];
    }
  }

  /** Two lines put before a join. */
  lemma JoinAfterTwo(a: string, b: string, rest: seq<string>)
    requires rest != []
    ensures a + "\n" + b + "\n" + Join(rest) == Join([a, b] + rest)
  {
    JoinAppend([a, b], rest);
    assert [a, b][1..] == [b];
  }
}
