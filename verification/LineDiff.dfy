/**
 The line diff of internal/ovpnconf/config.go: Diff splits two texts into lines,
 fills the table of longest-common-subsequence lengths from the end and walks it
 greedily. Here: the walk is an edit script that turns the one text into the
 other, and no shorter one exists.
 */
module LineDiff {
  import opened Wrappers
  import opened Seqs

  // ----- lines -----

  /** strings.TrimRight(s, "\n"). */
  function TrimNewlines(s: string): (r: string)
    ensures r <= s
    ensures r != [] ==> r[|r| - 1] != '\n'
    ensures forall i :: |r| <= i < |s| ==> s[i] == '\n'
  {
    if s != [] && s[|s| - 1] == '\n' then TrimNewlines(s[..|s| - 1]) else s
  }

  /** strings.Split(s, "\n"). */
  function SplitLines(s: string): (r: seq<string>)
    ensures r != []
    ensures forall i :: 0 <= i < |r| ==> '\n' !in r[i]
  {
    if s == [] then [""]
    else
      var rest := SplitLines(s[1..]);
      if s[0] == '\n' then [""] + rest else [[s[0]] + rest[0]] + rest[1..]
  }

  function JoinLines(ls: seq<string>): string
    requires ls != []
  {
    if |ls| == 1 then ls[0] else ls[0] + "\n" + JoinLines(ls[1..])
  }

  /** Splitting loses nothing. */
  lemma {:induction false} JoinSplit(s: string)
    ensures JoinLines(SplitLines(s)) == s
  {
    if s != [] {
      var rest := SplitLines(s[1..]);
      JoinSplit(s[1..]);
      if s[0] == '\n' {
        assert ([""] + rest)[1..] == rest;
        assert s == "" + "\n" + s[1..];
      } else {
        var first := [s[0]] + rest[0];
        assert ([first] + rest[1..])[1..] == rest[1..];
        if |rest| > 1 {
          assert first + "\n" + JoinLines(rest[1..]) == [s[0]] + (rest[0] + "\n" + JoinLines(rest[1..]));
        }
        assert s == [s[0]] + s[1..];
      }
    }
  }

  lemma SameLinesIffSameText(s: string, t: string)
    ensures SplitLines(s) == SplitLines(t) <==> s == t
  {
    JoinSplit(s);
    JoinSplit(t);
  }

  // ----- common subsequences -----

  predicate IsSubseq(c: seq<string>, s: seq<string>) {
    if c == [] then true
    else if s == [] then false
    else (c[0] == s[0] && IsSubseq(c[1..], s[1..])) || IsSubseq(c, s[1..])
  }

  /** The recurrence that the table is filled with. */
  function Lcs(a: seq<string>, b: seq<string>): nat
    decreases |a| + |b|
  {
    if a == [] || b == [] then 0
    else if a[0] == b[0] then Lcs(a[1..], b[1..]) + 1
    else Max(Lcs(a[1..], b), Lcs(a, b[1..]))
  }

  function Max(x: nat, y: nat): nat { if x >= y then x else y }

  /** Dropping the first line of a subsequence or of neither keeps it one. */
  lemma {:induction false} SubseqTail(c: seq<string>, s: seq<string>)
    requires c != [] && IsSubseq(c, s)
    ensures IsSubseq(c[1..], s)
    decreases |s|
  {
    if IsSubseq(c, s[1..]) {
      SubseqTail(c, s[1..]);
      SubseqWeaken(c[1..], s);
    } else {
      SubseqWeaken(c[1..], s);
    }
  }

  lemma SubseqWeaken(c: seq<string>, s: seq<string>)
    requires s != [] && IsSubseq(c, s[1..])
    ensures IsSubseq(c, s)
  {
  }

  /** No common subsequence is longer than the recurrence says. */
  lemma {:induction false} LcsIsUpperBound(c: seq<string>, a: seq<string>, b: seq<string>)
    requires IsSubseq(c, a) && IsSubseq(c, b)
    ensures |c| <= Lcs(a, b)
    decreases |a| + |b|
  {
    if c != [] {
      if a[0] == b[0] {
        // c without its head embeds in both tails
        if c[0] == a[0] && IsSubseq(c[1..], a[1..]) {
        } else {
          SubseqTail(c, a[1..]);
        }
        if c[0] == b[0] && IsSubseq(c[1..], b[1..]) {
        } else {
          SubseqTail(c, b[1..]);
        }
        LcsIsUpperBound(c[1..], a[1..], b[1..]);
      } else if IsSubseq(c, a[1..]) {
        LcsIsUpperBound(c, a[1..], b);
      } else {
        LcsIsUpperBound(c, a, b[1..]);
      }
    }
  }

  // ----- edit scripts -----

  datatype Edit = Keep(line: string) | Del(line: string) | Ins(line: string)

  /** The text a script starts from, and the one it produces. */
  function Source(es: seq<Edit>): seq<string> {
    if es == [] then [] else (if es[0].Ins? then [] else [es[0].line]) + Source(es[1..])
  }

  function Target(es: seq<Edit>): seq<string> {
    if es == [] then [] else (if es[0].Del? then [] else [es[0].line]) + Target(es[1..])
  }

  function Kept(es: seq<Edit>): seq<string> {
    if es == [] then [] else (if es[0].Keep? then [es[0].line] else []) + Kept(es[1..])
  }

  /** The script run backwards in meaning: what was deleted is inserted and the other way round. */
  function Reversed(es: seq<Edit>): seq<Edit> {
    if es == [] then []
    else [match es[0] case Keep(l) => Keep(l) case Del(l) => Ins(l) case Ins(l) => Del(l)] + Reversed(es[1..])
  }

  /** What Diff prints of a script: one line per edit, kept lines left out. */
  function Printed(es: seq<Edit>): seq<string> {
    if es == [] then []
    else (match es[0] case Keep(_) => [] case Del(l) => ["-" + l] case Ins(l) => ["+" + l]) + Printed(es[1..])
  }

  /** The lines that a script deletes, and those that it inserts. */
  function Deleted(es: seq<Edit>): seq<string> {
    if es == [] then [] else (if es[0].Del? then [es[0].line] else []) + Deleted(es[1..])
  }

  function Inserted(es: seq<Edit>): seq<string> {
    if es == [] then [] else (if es[0].Ins? then [es[0].line] else []) + Inserted(es[1..])
  }

  /** The printed lines that carry a sign, without it. */
  function Signed(out: seq<string>, sign: char): seq<string> {
    if out == [] then []
    else (if out[0] != "" && out[0][0] == sign then [out[0][1..]] else []) + Signed(out[1..], sign)
  }

  /** What is printed says what was deleted and what was inserted. */
  lemma {:induction false} SignsTell(es: seq<Edit>)
    ensures Signed(Printed(es), '-') == Deleted(es)
    ensures Signed(Printed(es), '+') == Inserted(es)
    ensures forall i :: 0 <= i < |Printed(es)| ==> Printed(es)[i] != "" && Printed(es)[i][0] in "-+"
  {
    if es != [] {
      SignsTell(es[1..]);
      if !es[0].Keep? {
        assert Printed(es)[1..] == Printed(es[1..]);
        assert Printed(es)[0][1..] == es[0].line;
      } else {
        assert Printed(es) == Printed(es[1..]);
      }
    }
  }

  predicate Turns(es: seq<Edit>, a: seq<string>, b: seq<string>) {
    Source(es) == a && Target(es) == b
  }

  /** Every script's length is fixed by how many lines it keeps. */
  lemma {:induction false} PrintedLength(es: seq<Edit>)
    ensures |Printed(es)| == |Source(es)| + |Target(es)| - 2 * |Kept(es)|
    ensures IsSubseq(Kept(es), Source(es)) && IsSubseq(Kept(es), Target(es))
  {
    if es != [] {
      PrintedLength(es[1..]);
      var s, t := Source(es), Target(es);
      match es[0]
      case Keep(l) =>
        assert s[1..] == Source(es[1..]) && t[1..] == Target(es[1..]) && Kept(es)[1..] == Kept(es[1..]);
      case Del(l) =>
        assert s[1..] == Source(es[1..]) && t == Target(es[1..]) && Kept(es) == Kept(es[1..]);
      case Ins(l) =>
        assert t[1..] == Target(es[1..]) && s == Source(es[1..]) && Kept(es) == Kept(es[1..]);
    }
  }

  /** The greedy walk over the table. */
  function Walk(a: seq<string>, b: seq<string>): seq<Edit>
    decreases |a| + |b|
  {
    if a == [] && b == [] then []
    else if a != [] && b != [] && a[0] == b[0] then [Keep(a[0])] + Walk(a[1..], b[1..])
    else if a != [] && (b == [] || Lcs(a[1..], b) >= Lcs(a, b[1..])) then [Del(a[0])] + Walk(a[1..], b)
    else [Ins(b[0])] + Walk(a, b[1..])
  }

  lemma {:induction false} WalkTurns(a: seq<string>, b: seq<string>)
    ensures Turns(Walk(a, b), a, b)
    ensures |Kept(Walk(a, b))| == Lcs(a, b)
    decreases |a| + |b|
  {
    var es := Walk(a, b);
    if a == [] && b == [] {
    } else if a != [] && b != [] && a[0] == b[0] {
      WalkTurns(a[1..], b[1..]);
      assert es[1..] == Walk(a[1..], b[1..]);
      assert a == [a[0]] + a[1..] && b == [b[0]] + b[1..];
    } else if a != [] && (b == [] || Lcs(a[1..], b) >= Lcs(a, b[1..])) {
      WalkTurns(a[1..], b);
      assert es[1..] == Walk(a[1..], b);
      assert a == [a[0]] + a[1..];
    } else {
      WalkTurns(a, b[1..]);
      assert es[1..] == Walk(a, b[1..]);
      assert b == [b[0]] + b[1..];
    }
  }

  /** Of a run of changes the deletions come first. */
  lemma {:induction false} DeletionsFirst(a: seq<string>, b: seq<string>, i: nat)
    requires i + 1 < |Walk(a, b)|
    ensures !(Walk(a, b)[i].Ins? && Walk(a, b)[i + 1].Del?)
    decreases |a| + |b|
  {
    var es := Walk(a, b);
    if i > 0 {
      if a != [] && b != [] && a[0] == b[0] {
        assert es[1..] == Walk(a[1..], b[1..]);
        DeletionsFirst(a[1..], b[1..], i - 1);
      } else if a != [] && (b == [] || Lcs(a[1..], b) >= Lcs(a, b[1..])) {
        assert es[1..] == Walk(a[1..], b);
        DeletionsFirst(a[1..], b, i - 1);
      } else {
        assert es[1..] == Walk(a, b[1..]);
        DeletionsFirst(a, b[1..], i - 1);
      }
    } else if es[0].Ins? && a != [] {
      assert es[1..] == Walk(a, b[1..]);
      LcsMonotone(a[1..], b);
    }
  }

  lemma LcsMonotone(a: seq<string>, b: seq<string>)
    requires b != []
    ensures Lcs(a, b[1..]) <= Lcs(a, b)
  {
    WalkTurns(a, b[1..]);
    PrintedLength(Walk(a, b[1..]));
    SubseqWeaken(Kept(Walk(a, b[1..])), b);
    LcsIsUpperBound(Kept(Walk(a, b[1..])), a, b);
  }

  /** The recurrence is attained: some common subsequence is that long. */
  lemma LcsIsAttained(a: seq<string>, b: seq<string>)
    ensures exists c :: IsSubseq(c, a) && IsSubseq(c, b) && |c| == Lcs(a, b)
  {
    WalkTurns(a, b);
    PrintedLength(Walk(a, b));
    assert IsSubseq(Kept(Walk(a, b)), a);
  }

  /** The diff is a shortest one: |a| + |b| - 2 LCS lines, and no script that turns a into b prints fewer. */
  lemma WalkIsShortest(a: seq<string>, b: seq<string>, other: seq<Edit>)
    requires Turns(other, a, b)
    ensures |Printed(Walk(a, b))| == |a| + |b| - 2 * Lcs(a, b)
    ensures |Printed(Walk(a, b))| <= |Printed(other)|
  {
    WalkTurns(a, b);
    PrintedLength(Walk(a, b));
    PrintedLength(other);
    LcsIsUpperBound(Kept(other), a, b);
  }

  /** Reversing the script turns b back into a. */
  lemma {:induction false} ReversedTurnsBack(es: seq<Edit>)
    ensures Source(Reversed(es)) == Target(es) && Target(Reversed(es)) == Source(es)
  {
    if es != [] {
      ReversedTurnsBack(es[1..]);
      assert Reversed(es)[1..] == Reversed(es[1..]);
    }
  }

  /** Applying a script to a text: kept and deleted lines must be there, in order, to the last line. */
  function Patch(text: seq<string>, es: seq<Edit>): Option<seq<string>>
    decreases |es|
  {
    if es == [] then (if text == [] then Some([]) else None)
    else match es[0]
      case Ins(l) =>
        var rest := Patch(text, es[1..]);
        if rest.Some? then Some([l] + rest.value) else None
      case Del(l) => if text == [] || text[0] != l then None else Patch(text[1..], es[1..])
      case Keep(l) =>
        if text == [] || text[0] != l then None
        else
          var rest := Patch(text[1..], es[1..]);
          if rest.Some? then Some([l] + rest.value) else None
  }

  /** A script applies to its own source and to nothing else, and gives its target. */
  lemma {:induction false} PatchExact(text: seq<string>, es: seq<Edit>)
    ensures Patch(text, es) == if text == Source(es) then Some(Target(es)) else None
    decreases |es|
  {
    if es != [] {
      if es[0].Ins? {
        PatchExact(text, es[1..]);
      } else {
        var source := Source(es);
        assert source[0] == es[0].line && source[1..] == Source(es[1..]);
        if text != [] {
          PatchExact(text[1..], es[1..]);
          SameHeadSameTail(text, source);
        }
        assert es[0].Del? ==> Target(es) == Target(es[1..]);
      }
    }
  }

  lemma SameHeadSameTail(s: seq<string>, t: seq<string>)
    requires s != [] && t != []
    ensures s == t <==> s[0] == t[0] && s[1..] == t[1..]
  {
    assert s == [s[0]] + s[1..] && t == [t[0]] + t[1..];
  }

  lemma {:induction false} LcsWithItself(a: seq<string>)
    ensures Lcs(a, a) == |a|
  {
    if a != [] {
      LcsWithItself(a[1..]);
    }
  }

  /** Lcs never exceeds either side, and reaches both only for equal sequences. */
  lemma {:induction false} LcsFullOnlyIfEqual(a: seq<string>, b: seq<string>)
    ensures Lcs(a, b) <= |a| && Lcs(a, b) <= |b|
    ensures 2 * Lcs(a, b) == |a| + |b| ==> a == b
    decreases |a| + |b|
  {
    if a != [] && b != [] {
      LcsFullOnlyIfEqual(a[1..], b[1..]);
      LcsFullOnlyIfEqual(a[1..], b);
      LcsFullOnlyIfEqual(a, b[1..]);
      assert a == [a[0]] + a[1..] && b == [b[0]] + b[1..];
    }
  }

  function DiffOf(before: string, after: string): seq<string> {
    Printed(Walk(SplitLines(TrimNewlines(before)), SplitLines(TrimNewlines(after))))
  }

  /** What decides whether a configuration change is persisted: the diff is empty exactly when the texts
      are equal up to trailing newlines. */
  lemma EmptyIffSameText(before: string, after: string)
    ensures DiffOf(before, after) == [] <==> TrimNewlines(before) == TrimNewlines(after)
  {
    var a, b := SplitLines(TrimNewlines(before)), SplitLines(TrimNewlines(after));
    WalkTurns(a, b);
    PrintedLength(Walk(a, b));
    LcsFullOnlyIfEqual(a, b);
    LcsWithItself(a);
    SameLinesIffSameText(TrimNewlines(before), TrimNewlines(after));
  }

  /** Round trip: the printed diff is that of a script which patches the one text into the other, and
      whose reversal patches it back. */
  lemma DiffRoundTrip(before: string, after: string)
    ensures var a, b := SplitLines(TrimNewlines(before)), SplitLines(TrimNewlines(after));
      var es := Walk(a, b);
      && Printed(es) == DiffOf(before, after)
      && Patch(a, es) == Some(b) && JoinLines(b) == TrimNewlines(after)
      && Patch(b, Reversed(es)) == Some(a) && JoinLines(a) == TrimNewlines(before)
  {
    var a, b := SplitLines(TrimNewlines(before)), SplitLines(TrimNewlines(after));
    var es := Walk(a, b);
    WalkTurns(a, b);
    ReversedTurnsBack(es);
    PatchExact(a, es);
    PatchExact(b, Reversed(es));
    JoinSplit(TrimNewlines(before));
    JoinSplit(TrimNewlines(after));
  }

  // ----- the in-place algorithm -----

  lemma LcsCell(a: seq<string>, b: seq<string>, i: nat, j: nat)
    requires i < |a| && j < |b|
    ensures Lcs(a[i..], b[j..]) ==
      if a[i] == b[j] then Lcs(a[i + 1..], b[j + 1..]) + 1 else Max(Lcs(a[i + 1..], b[j..]), Lcs(a[i..], b[j + 1..]))
  {
    Suffix(a, i);
    Suffix(b, j);
  }

  /** Row x of the finished table. */
  ghost function LcsRow(a: seq<string>, b: seq<string>, x: nat): (row: seq<nat>)
    requires x <= |a|
    ensures |row| == |b| + 1
  {
    seq(|b| + 1, y requires 0 <= y <= |b| => Lcs(a[x..], b[y..]))
  }

  /** row is what one pass from right to left makes of the row below it. */
  ghost predicate Follows(line: string, b: seq<string>, row: seq<nat>, below: seq<nat>) {
    && |row| == |b| + 1 && |below| == |b| + 1 && row[|b|] == 0
    && forall y :: 0 <= y < |b| ==> row[y] == if line == b[y] then below[y + 1] + 1 else Max(below[y], row[y + 1])
  }

  lemma RowFollows(a: seq<string>, b: seq<string>, i: nat)
    requires i < |a|
    ensures Follows(a[i], b, LcsRow(a, b, i), LcsRow(a, b, i + 1))
  {
    forall j | 0 <= j < |b|
      ensures LcsRow(a, b, i)[j] ==
        if a[i] == b[j] then LcsRow(a, b, i + 1)[j + 1] + 1 else Max(LcsRow(a, b, i + 1)[j], LcsRow(a, b, i)[j + 1])
    {
      LcsCell(a, b, i, j);
    }
  }

  method FillRow(line: string, b: seq<string>, i: nat, lcs: array2<nat>, ghost row: seq<nat>, ghost below: seq<nat>)
    requires i + 1 < lcs.Length0 && lcs.Length1 == |b| + 1
    requires Follows(line, b, row, below)
    requires lcs[i, |b|] == 0 && forall y :: 0 <= y <= |b| ==> lcs[i + 1, y] == below[y]
    modifies lcs
    ensures forall y :: 0 <= y <= |b| ==> lcs[i, y] == row[y]
    ensures forall x, y :: 0 <= x < lcs.Length0 && 0 <= y <= |b| && x != i ==> lcs[x, y] == old(lcs[x, y])
  {
    var j := |b|;
    while j > 0
      invariant 0 <= j <= |b|
      invariant forall y :: j <= y <= |b| ==> lcs[i, y] == row[y]
      invariant forall x, y :: 0 <= x < lcs.Length0 && 0 <= y <= |b| && x != i ==> lcs[x, y] == old(lcs[x, y])
    {
      j := j - 1;
      assert row[j] == if line == b[j] then below[j + 1] + 1 else Max(below[j], row[j + 1]);
      if line == b[j] {
        lcs[i, j] := lcs[i + 1, j + 1] + 1;
      } else {
        lcs[i, j] := Max(lcs[i + 1, j], lcs[i, j + 1]);
      }
    }
  }

  method FillTable(a: seq<string>, b: seq<string>) returns (lcs: array2<nat>)
    ensures fresh(lcs) && lcs.Length0 == |a| + 1 && lcs.Length1 == |b| + 1
    ensures forall i, j :: 0 <= i <= |a| && 0 <= j <= |b| ==> lcs[i, j] == Lcs(a[i..], b[j..])
  {
    lcs := new nat[|a| + 1, |b| + 1]((_, _) => 0);
    var i := |a|;
    while i > 0
      invariant 0 <= i <= |a|
      invariant forall x, y :: i <= x <= |a| && 0 <= y <= |b| ==> lcs[x, y] == LcsRow(a, b, x)[y]
      invariant forall x :: 0 <= x < i ==> lcs[x, |b|] == 0
    {
      i := i - 1;
      RowFollows(a, b, i);
      FillRow(a[i], b, i, lcs, LcsRow(a, b, i), LcsRow(a, b, i + 1));
    }
    forall x, y | 0 <= x <= |a| && 0 <= y <= |b| ensures lcs[x, y] == Lcs(a[x..], b[y..]) {
      assert lcs[x, y] == LcsRow(a, b, x)[y];
    }
  }

  /** One round of the walk, at i and j. */
  lemma PrintedStep(a: seq<string>, b: seq<string>, i: nat, j: nat)
    requires i <= |a| && j <= |b| && (i < |a| || j < |b|)
    ensures var rest := Printed(Walk(a[i..], b[j..]));
      if i < |a| && j < |b| && a[i] == b[j] then rest == Printed(Walk(a[i + 1..], b[j + 1..]))
      else if i < |a| && (j == |b| || Lcs(a[i + 1..], b[j..]) >= Lcs(a[i..], b[j + 1..])) then
        rest == ["-" + a[i]] + Printed(Walk(a[i + 1..], b[j..]))
      else j < |b| && rest == ["+" + b[j]] + Printed(Walk(a[i..], b[j + 1..]))
  {
    var script := Walk(a[i..], b[j..]);
    if i < |a| {
      Suffix(a, i);
    }
    if j < |b| {
      Suffix(b, j);
    }
    if i < |a| && j < |b| && a[i] == b[j] {
      assert script[1..] == Walk(a[i + 1..], b[j + 1..]);
    } else if i < |a| && (j == |b| || Lcs(a[i + 1..], b[j..]) >= Lcs(a[i..], b[j + 1..])) {
      assert script[1..] == Walk(a[i + 1..], b[j..]);
    } else {
      assert script[1..] == Walk(a[i..], b[j + 1..]);
    }
  }

  method WalkTable(a: seq<string>, b: seq<string>, lcs: array2<nat>) returns (out: seq<string>)
    requires lcs.Length0 == |a| + 1 && lcs.Length1 == |b| + 1
    requires forall i, j :: 0 <= i <= |a| && 0 <= j <= |b| ==> lcs[i, j] == Lcs(a[i..], b[j..])
    ensures out == Printed(Walk(a, b))
  {
    out := [];
    var i, j := 0, 0;
    assert a[0..] == a && b[0..] == b;
    while i < |a| || j < |b|
      invariant 0 <= i <= |a| && 0 <= j <= |b|
      invariant Printed(Walk(a, b)) == out + Printed(Walk(a[i..], b[j..]))
      decreases |a| - i + |b| - j
    {
      PrintedStep(a, b, i, j);
      if i < |a| && j < |b| && a[i] == b[j] {
        i, j := i + 1, j + 1;
      } else if i < |a| && (j == |b| || lcs[i + 1, j] >= lcs[i, j + 1]) {
        Associate(out, ["-" + a[i]], Printed(Walk(a[i + 1..], b[j..])));
        out, i := out + ["-" + a[i]], i + 1;
      } else {
        Associate(out, ["+" + b[j]], Printed(Walk(a[i..], b[j + 1..])));
        out, j := out + ["+" + b[j]], j + 1;
      }
    }
    assert a[i..] == [] && b[j..] == [];
  }

  method Diff(before: string, after: string) returns (out: seq<string>)
    ensures out == DiffOf(before, after)
  {
    var a, b := SplitLines(TrimNewlines(before)), SplitLines(TrimNewlines(after));
    var lcs := FillTable(a, b);
    out := WalkTable(a, b, lcs);
  }
}
