/** Line-oriented text as bufio.Reader and package strings handle it. */
module Lines {
  import opened Wrappers

  /** ReadString('\n'): the text up to and including the first newline, and what follows it. */
  function NextLine(s: string): (r: Option<(string, string)>)
    ensures r.Some? ==> s == r.value.0 + r.value.1 && r.value.0 != []
    ensures r.None? <==> '\n' !in s
  {
    if s == [] then None
    else if s[0] == '\n' then Some((s[..1], s[1..]))
    else
      var r := NextLine(s[1..]);
      if r.None? then None else Some(([s[0]] + r.value.0, r.value.1))
  }

  lemma {:induction false} NextLineOf(line: string, rest: string)
    requires '\n' !in line
    ensures NextLine(line + "\n" + rest) == Some((line + "\n", rest))
  {
    var s := line + "\n" + rest;
    if line == [] {
      assert s[..1] == "\n" && s[1..] == rest;
    } else {
      NextLineOf(line[1..], rest);
      assert s[1..] == line[1..] + "\n" + rest;
      assert [line[0]] + (line[1..] + "\n") == line + "\n";
    }
  }

  class Reader {
    var rest: string

    constructor (s: string)
      ensures rest == s
    {
      rest := s;
    }

    method ReadString() returns (r: Option<string>)
      modifies this
      ensures match NextLine(old(rest))
              case None => r.None? && rest == ""
              case Some(p) => r == Some(p.0) && rest == p.1
    {
      var i := 0;
      while i < |rest| && rest[i] != '\n'
        invariant 0 <= i <= |rest| && '\n' !in rest[..i]
      {
        i := i + 1;
      }
      if i == |rest| {
        assert rest[..i] == rest;
        rest := "";
        return None;
      }
      assert rest == rest[..i] + "\n" + rest[i + 1..];
      NextLineOf(rest[..i], rest[i + 1..]);
      r := Some(rest[..i + 1]);
      rest := rest[i + 1..];
    }
  }

  /** strings.TrimRight(s, "\r\n"). */
  function TrimCRLF(s: string): string {
    if s != [] && (s[|s| - 1] == '\r' || s[|s| - 1] == '\n') then TrimCRLF(s[..|s| - 1]) else s
  }

  predicate LineEnd(eol: string) { eol == "\n" || eol == "\r\n" }

  /** A line's content without a carriage return of its own at the end. */
  predicate Clean(line: string) {
    '\n' !in line && (line != [] ==> line[|line| - 1] != '\r')
  }

  lemma TrimOne(s: string, c: char)
    requires c == '\r' || c == '\n'
    ensures TrimCRLF(s + [c]) == TrimCRLF(s)
  {
    assert (s + [c])[..|s|] == s;
  }

  lemma TrimLine(line: string, eol: string)
    requires Clean(line) && LineEnd(eol)
    ensures TrimCRLF(line + eol) == line
  {
    assert TrimCRLF(line) == line;
    if eol == "\r\n" {
      TrimOne(line, '\r');
      TrimOne(line + "\r", '\n');
      assert line + eol == line + "\r" + "\n";
    } else {
      TrimOne(line, '\n');
    }
  }

  /** Reading one rendered line back. */
  lemma ReadLine(line: string, eol: string, rest: string)
    requires '\n' !in line && LineEnd(eol)
    ensures NextLine(line + eol + rest) == Some((line + eol, rest))
  {
    if eol == "\n" {
      NextLineOf(line, rest);
    } else {
      NextLineOf(line + "\r", rest);
      assert line + "\r" + "\n" == line + eol;
    }
  }

  lemma {:induction false} TrimKeepsPrefix(s: string)
    ensures TrimCRLF(s) <= s
    ensures TrimCRLF(s) == [] ==> forall i :: 0 <= i < |s| ==> s[i] == '\r' || s[i] == '\n'
    decreases |s|
  {
    if s != [] && (s[|s| - 1] == '\r' || s[|s| - 1] == '\n') {
      TrimKeepsPrefix(s[..|s| - 1]);
    }
  }

  /** strings.Cut(s, sep) for one character: before, after, whether it was there. */
  function Cut(s: string, sep: char): (string, string, bool) {
    if s == [] then ([], [], false)
    else if s[0] == sep then ([], s[1..], true)
    else
      var (before, after, found) := Cut(s[1..], sep);
      ([s[0]] + before, after, found)
  }

  lemma {:induction false} CutAt(a: string, sep: char, b: string)
    requires sep !in a
    ensures Cut(a + [sep] + b, sep) == (a, b, true)
  {
    var s := a + [sep] + b;
    if a == [] {
      assert s[1..] == b;
    } else {
      CutAt(a[1..], sep, b);
      assert s[1..] == a[1..] + [sep] + b;
      assert [a[0]] + a[1..] == a;
    }
  }

  /** strings.Split(s, sep) for one character. */
  function Split(s: string, sep: char): (r: seq<string>)
    ensures r != []
  {
    if s == [] then [""]
    else
      var rest := Split(s[1..], sep);
      if s[0] == sep then [""] + rest else [[s[0]] + rest[0]] + rest[1..]
  }

  function Join(fs: seq<string>, sep: char): string
    requires fs != []
  {
    if |fs| == 1 then fs[0] else fs[0] + [sep] + Join(fs[1..], sep)
  }

  lemma {:induction false} SplitField(f: string, sep: char, rest: string)
    requires sep !in f
    ensures Split(f + [sep] + rest, sep) == [f] + Split(rest, sep)
  {
    var s := f + [sep] + rest;
    if f == [] {
      assert s[1..] == rest;
    } else {
      SplitField(f[1..], sep, rest);
      assert s[1..] == f[1..] + [sep] + rest;
      assert ([f[1..]] + Split(rest, sep))[1..] == Split(rest, sep);
      assert [f[0]] + f[1..] == f;
    }
  }

  lemma {:induction false} SplitLast(f: string, sep: char)
    requires sep !in f
    ensures Split(f, sep) == [f]
  {
    if f != [] {
      SplitLast(f[1..], sep);
      assert [f[0]] + f[1..] == f;
    }
  }

  /** Fields free of the separator survive joining and splitting. */
  lemma {:induction false} SplitJoin(fs: seq<string>, sep: char)
    requires fs != [] && forall i :: 0 <= i < |fs| ==> sep !in fs[i]
    ensures Split(Join(fs, sep), sep) == fs
  {
    if |fs| == 1 {
      SplitLast(fs[0], sep);
    } else {
      SplitJoin(fs[1..], sep);
      SplitField(fs[0], sep, Join(fs[1..], sep));
    }
  }

  /** Cutting takes off the first field of the split. */
  lemma {:induction false} CutIsSplit(s: string, sep: char)
    ensures var (before, after, found) := Cut(s, sep);
      && before == Split(s, sep)[0] && (found <==> |Split(s, sep)| > 1)
      && Split(after, sep) == (if found then Split(s, sep)[1..] else [""])
  {
    if s != [] {
      CutIsSplit(s[1..], sep);
      assert ([""] + Split(s[1..], sep))[1..] == Split(s[1..], sep);
    }
  }

  /** Three words on a line, read back. */
  lemma ThreeWords(a: string, b: string, c: string)
    requires ' ' !in a && ' ' !in b && ' ' !in c
    ensures Split(a + " " + b + " " + c, ' ') == [a, b, c]
    ensures '\n' !in a && '\n' !in b && '\n' !in c ==> '\n' !in a + " " + b + " " + c
  {
    assert [a, b, c][1..] == [b, c] && [b, c][1..] == [c];
    assert Join([b, c], ' ') == b + " " + c;
    assert Join([a, b, c], ' ') == a + " " + (b + " " + c);
    assert a + " " + (b + " " + c) == a + " " + b + " " + c;
    SplitJoin([a, b, c], ' ');
    if '\n' !in a && '\n' !in b && '\n' !in c {
      JoinAvoids([a, b, c], ' ', '\n');
    }
  }

  lemma {:induction false} JoinAvoids(fs: seq<string>, sep: char, c: char)
    requires fs != [] && c != sep && forall i :: 0 <= i < |fs| ==> c !in fs[i]
    ensures c !in Join(fs, sep)
  {
    if |fs| > 1 {
      JoinAvoids(fs[1..], sep, c);
    }
  }

  /** A joined text ends the way its last field does. */
  lemma {:induction false} JoinEndsLike(fs: seq<string>, sep: char)
    requires fs != []
    ensures EndsIn(Join(fs, sep), fs[|fs| - 1])
    ensures fs[|fs| - 1] == [] && |fs| > 1 ==> EndsIn(Join(fs, sep), [sep])
  {
    if |fs| > 1 {
      JoinEndsLike(fs[1..], sep);
      EndsConcat(fs[0] + [sep], Join(fs[1..], sep), fs[|fs| - 1]);
      EndsConcat(fs[0] + [sep], Join(fs[1..], sep), [sep]);
      if |fs| == 2 && fs[1] == [] {
        assert Join(fs[1..], sep) == [];
        assert Join(fs, sep) == fs[0] + [sep];
      }
    }
  }

  predicate EndsIn(s: string, suffix: string) {
    |suffix| <= |s| && s[|s| - |suffix|..] == suffix
  }

  lemma EndsConcat(a: string, b: string, suffix: string)
    ensures EndsIn(b, suffix) ==> EndsIn(a + b, suffix)
  {
    if EndsIn(b, suffix) {
      assert (a + b)[|a + b| - |suffix|..] == b[|b| - |suffix|..];
    }
  }
}
