/** packages/runtime/diff.js: the longest-common-subsequence line diff shown on file-change cards.

    The edit script is judged against an independent notion of script: any sequence of context,
    deletion and addition lines that spells both texts. Folding is judged against a relation that
    says which context lines a marker may stand for. */
module LineDiff {

  /** One entry of a diff. `Fold(k)` is the marker for k hidden context lines; `Rewritten` is the
      single entry shown for a pair of texts too large to compare. */
  datatype Line = Ctx(text: string) | Del(text: string) | Add(text: string) | Fold(hidden: nat) | Rewritten(before: nat, after: nat)

  const UINT16: int := 0x1_0000
  const SHOWN: nat := 600

  // ---- splitting a text into lines ----

  /** `text.split('\n')`: never empty, and the empty text is one empty line. */
  function Split(text: string): (lines: seq<string>)
    ensures |lines| >= 1
    ensures forall k :: 0 <= k < |lines| ==> '\n' !in lines[k]
    ensures Join(lines) == text
  {
    if text == "" then [""]
    else
      var rest := Split(text[1..]);
      if text[0] == '\n' then assert ([""] + rest)[1..] == rest; [""] + rest
      else
        assert ([[text[0]] + rest[0]] + rest[1..])[1..] == rest[1..];
        [[text[0]] + rest[0]] + rest[1..]
  }

  function Join(lines: seq<string>): string {
    if |lines| == 0 then ""
    else if |lines| == 1 then lines[0]
    else lines[0] + "\n" + Join(lines[1..])
  }

  // ---- edit scripts ----

  predicate IsEdit(l: Line) { l.Ctx? || l.Del? || l.Add? }

  ghost predicate AllEdits(s: seq<Line>) { forall k :: 0 <= k < |s| ==> IsEdit(s[k]) }

  /** The old text a script spells: its context and deleted lines. */
  function OldOf(s: seq<Line>): seq<string> {
    if s == [] then [] else (if s[0].Ctx? || s[0].Del? then [s[0].text] else []) + OldOf(s[1..])
  }

  /** The new text a script spells: its context and added lines. */
  function NewOf(s: seq<Line>): seq<string> {
    if s == [] then [] else (if s[0].Ctx? || s[0].Add? then [s[0].text] else []) + NewOf(s[1..])
  }

  function Kept(s: seq<Line>): nat { if s == [] then 0 else (if s[0].Ctx? then 1 else 0) + Kept(s[1..]) }

  function Adds(s: seq<Line>): nat { if s == [] then 0 else (if s[0].Add? then 1 else 0) + Adds(s[1..]) }

  function Dels(s: seq<Line>): nat { if s == [] then 0 else (if s[0].Del? then 1 else 0) + Dels(s[1..]) }

  /** s turns a into b. */
  ghost predicate IsScript(s: seq<Line>, a: seq<string>, b: seq<string>) {
    AllEdits(s) && OldOf(s) == a && NewOf(s) == b
  }

  lemma {:induction false} OldAppend(s: seq<Line>, l: Line)
    ensures OldOf(s + [l]) == OldOf(s) + (if l.Ctx? || l.Del? then [l.text] else [])
  {
    if s == [] {
      assert s + [l] == [l];
    } else {
      OldAppend(s[1..], l);
      assert (s + [l])[1..] == s[1..] + [l];
    }
  }

  lemma {:induction false} NewAppend(s: seq<Line>, l: Line)
    ensures NewOf(s + [l]) == NewOf(s) + (if l.Ctx? || l.Add? then [l.text] else [])
  {
    if s == [] {
      assert s + [l] == [l];
    } else {
      NewAppend(s[1..], l);
      assert (s + [l])[1..] == s[1..] + [l];
    }
  }

  lemma {:induction false} CountAppend(s: seq<Line>, l: Line)
    ensures Kept(s + [l]) == Kept(s) + (if l.Ctx? then 1 else 0)
    ensures Adds(s + [l]) == Adds(s) + (if l.Add? then 1 else 0)
    ensures Dels(s + [l]) == Dels(s) + (if l.Del? then 1 else 0)
  {
    if s == [] {
      assert s + [l] == [l];
    } else {
      CountAppend(s[1..], l);
      assert (s + [l])[1..] == s[1..] + [l];
    }
  }

  /** Every script balances: its additions less its deletions is the difference in line counts. */
  lemma {:induction false} ScriptCounts(s: seq<Line>, a: seq<string>, b: seq<string>)
    requires IsScript(s, a, b)
    ensures Kept(s) + Dels(s) == |a|
    ensures Kept(s) + Adds(s) == |b|
    ensures Adds(s) - Dels(s) == |b| - |a|
  {
    if s != [] {
      ScriptCounts(s[1..], OldOf(s[1..]), NewOf(s[1..]));
    }
  }

  // ---- the longest common subsequence ----

  /** The length of the longest common subsequence of a[i..] and b[j..]. */
  function Lcs(a: seq<string>, b: seq<string>, i: nat, j: nat): nat
    requires i <= |a| && j <= |b|
    decreases |a| - i + |b| - j
  {
    if i == |a| || j == |b| then 0
    else if a[i] == b[j] then Lcs(a, b, i + 1, j + 1) + 1
    else Max(Lcs(a, b, i + 1, j), Lcs(a, b, i, j + 1))
  }

  function Max(x: nat, y: nat): nat { if x >= y then x else y }

  function Min(x: nat, y: nat): nat { if x <= y then x else y }

  /** Dropping one line from either side loses at most one match and never gains one. */
  lemma {:induction false} LcsSlope(a: seq<string>, b: seq<string>, i: nat, j: nat)
    requires i <= |a| && j <= |b|
    ensures i < |a| ==> Lcs(a, b, i + 1, j) <= Lcs(a, b, i, j) <= Lcs(a, b, i + 1, j) + 1
    ensures j < |b| ==> Lcs(a, b, i, j + 1) <= Lcs(a, b, i, j) <= Lcs(a, b, i, j + 1) + 1
    decreases |a| - i + |b| - j
  {
    if i < |a| && j < |b| {
      LcsSlope(a, b, i + 1, j);
      LcsSlope(a, b, i, j + 1);
      LcsSlope(a, b, i + 1, j + 1);
    }
  }

  lemma {:induction false} LcsBounded(a: seq<string>, b: seq<string>, i: nat, j: nat)
    requires i <= |a| && j <= |b|
    ensures Lcs(a, b, i, j) <= Min(|a| - i, |b| - j)
    decreases |a| - i + |b| - j
  {
    if i < |a| && j < |b| {
      LcsBounded(a, b, i + 1, j);
      LcsBounded(a, b, i, j + 1);
      LcsBounded(a, b, i + 1, j + 1);
    }
  }

  /** No script between the two suffixes keeps more lines than the table's entry. */
  lemma {:induction false} LcsIsUpperBound(s: seq<Line>, a: seq<string>, b: seq<string>, i: nat, j: nat)
    requires i <= |a| && j <= |b|
    requires IsScript(s, a[i..], b[j..])
    ensures Kept(s) <= Lcs(a, b, i, j)
  {
    if s != [] {
      var rest := s[1..];
      LcsSlope(a, b, i, j);
      match s[0]
      case Ctx(t) =>
        assert a[i..][0] == t && b[j..][0] == t;
        assert OldOf(rest) == a[i..][1..] == a[i + 1..];
        assert NewOf(rest) == b[j..][1..] == b[j + 1..];
        LcsIsUpperBound(rest, a, b, i + 1, j + 1);
      case Del(t) =>
        assert a[i..][0] == t;
        assert OldOf(rest) == a[i..][1..] == a[i + 1..];
        LcsIsUpperBound(rest, a, b, i + 1, j);
      case Add(t) =>
        assert b[j..][0] == t;
        assert NewOf(rest) == b[j..][1..] == b[j + 1..];
        LcsIsUpperBound(rest, a, b, i, j + 1);
      case _ =>
    }
  }

  /** A script that keeps Lcs(a, b, 0, 0) lines makes the fewest changes of all scripts. */
  lemma FewestChanges(s: seq<Line>, other: seq<Line>, a: seq<string>, b: seq<string>)
    requires IsScript(s, a, b) && Kept(s) == Lcs(a, b, 0, 0)
    requires IsScript(other, a, b)
    ensures Adds(s) + Dels(s) <= Adds(other) + Dels(other)
  {
    assert a[0..] == a && b[0..] == b;
    LcsIsUpperBound(other, a, b, 0, 0);
    ScriptCounts(s, a, b);
    ScriptCounts(other, a, b);
  }

  // ---- the table of 16-bit cells ----

  /** What the table really holds: the recurrence with every stored sum reduced to 16 bits. */
  function Cell(a: seq<string>, b: seq<string>, i: nat, j: nat): (c: nat)
    requires i <= |a| && j <= |b|
    decreases |a| - i + |b| - j
  {
    if i == |a| || j == |b| then 0
    else if a[i] == b[j] then (Cell(a, b, i + 1, j + 1) + 1) % UINT16
    else Max(Cell(a, b, i + 1, j), Cell(a, b, i, j + 1))
  }

  /** Cells hold subsequence lengths from (i, j) on exactly when the longest of them fits in 16 bits. */
  lemma {:induction false} CellExact(a: seq<string>, b: seq<string>, i: nat, j: nat)
    requires i <= |a| && j <= |b|
    ensures Cell(a, b, i, j) < UINT16
    ensures Lcs(a, b, i, j) < UINT16 <==> Cell(a, b, i, j) == Lcs(a, b, i, j)
    decreases |a| - i + |b| - j
  {
    if i < |a| && j < |b| {
      LcsSlope(a, b, i, j);
      CellExact(a, b, i + 1, j);
      CellExact(a, b, i, j + 1);
      CellExact(a, b, i + 1, j + 1);
    }
  }

  lemma {:induction false} LcsShrinks(a: seq<string>, b: seq<string>, i: nat, j: nat)
    requires i <= |a| && j <= |b|
    ensures Lcs(a, b, i, j) <= Lcs(a, b, 0, 0)
    decreases i + j
  {
    if i > 0 {
      LcsSlope(a, b, i - 1, j);
      LcsShrinks(a, b, i - 1, j);
    } else if j > 0 {
      LcsSlope(a, b, i, j - 1);
      LcsShrinks(a, b, i, j - 1);
    }
  }

  /** The size guard keeps every cell inside 16 bits as long as the cap itself is. */
  lemma NoCellWraps(a: seq<string>, b: seq<string>, cap: int, i: nat, j: nat)
    requires |a| * |b| <= cap * cap && -UINT16 < cap < UINT16
    requires i <= |a| && j <= |b|
    ensures Cell(a, b, i, j) == Lcs(a, b, i, j) < UINT16
  {
    var m := Min(|a|, |b|);
    SquareGrows(m, |a|, |b|);
    SquareRoot(m, cap);
    LcsBounded(a, b, 0, 0);
    LcsShrinks(a, b, i, j);
    CellExact(a, b, i, j);
  }

  lemma SquareGrows(m: nat, x: nat, y: nat)
    requires m <= x && m <= y
    ensures m * m <= x * y
  {
    assert m * m <= m * y;
    assert m * y <= x * y;
  }

  lemma SquareRoot(m: nat, cap: int)
    requires m * m <= cap * cap
    ensures m <= cap || m <= -cap
  {
    var c := if cap < 0 then -cap else cap;
    assert c * c == cap * cap;
    assert m > c ==> m * m > c * c by { if m > c { SquareGrows(c + 1, m, m); } }
  }

  /** n equal lines. */
  function Same(n: nat): (lines: seq<string>)
    ensures |lines| == n && forall k :: 0 <= k < n ==> lines[k] == ""
  { seq(n, _ => "") }

  lemma {:induction false} LcsOfSame(n: nat, i: nat)
    requires i <= n
    ensures Lcs(Same(n), Same(n), i, i) == n - i
    decreases n - i
  {
    if i < n { LcsOfSame(n, i + 1); }
  }

  /** The cap's bound is tight: a cap of 65536 or more admits a pair of texts whose first cell wraps. */
  lemma LargeCapWraps(cap: int)
    requires cap >= UINT16 || cap <= -UINT16
    ensures exists n: nat :: n * n <= cap * cap && Cell(Same(n), Same(n), 0, 0) != Lcs(Same(n), Same(n), 0, 0)
  {
    var n := if cap < 0 then -cap else cap;
    assert n * n == cap * cap;
    LcsOfSame(n, 0);
    CellExact(Same(n), Same(n), 0, 0);
  }

  // ---- the algorithm ----

  ghost predicate RowFilled(a: seq<string>, b: seq<string>, dp: array2<int>, i: nat, from: nat)
    requires i <= |a| && dp.Length0 == |a| + 1 && dp.Length1 == |b| + 1
    reads dp
  {
    forall j: nat :: from <= j <= |b| ==> dp[i, j] == Cell(a, b, i, j)
  }

  /** Row i of the table, right to left, from the finished row below it. */
  method FillRow(a: seq<string>, b: seq<string>, dp: array2<int>, i: nat)
    requires i < |a| && dp.Length0 == |a| + 1 && dp.Length1 == |b| + 1
    requires RowFilled(a, b, dp, i + 1, 0) && dp[i, |b|] == 0
    modifies dp
    ensures RowFilled(a, b, dp, i, 0)
    ensures forall x: nat, y: nat :: x <= |a| && y <= |b| && x != i ==> dp[x, y] == old(dp[x, y])
  {
    for j := |b| downto 0
      invariant RowFilled(a, b, dp, i, j)
      invariant forall x: nat, y: nat :: x <= |a| && y <= |b| && x != i ==> dp[x, y] == old(dp[x, y])
    {
      dp[i, j] := if a[i] == b[j] then (dp[i + 1, j + 1] + 1) % UINT16
                  else if dp[i + 1, j] >= dp[i, j + 1] then dp[i + 1, j] else dp[i, j + 1];
    }
  }

  /** Fills the table bottom-up. */
  method FillTable(a: seq<string>, b: seq<string>) returns (dp: array2<int>)
    ensures fresh(dp) && dp.Length0 == |a| + 1 && dp.Length1 == |b| + 1
    ensures forall i: nat, j: nat :: i <= |a| && j <= |b| ==> dp[i, j] == Cell(a, b, i, j)
  {
    dp := new int[|a| + 1, |b| + 1]((_, _) => 0);
    for i := |a| downto 0
      invariant forall x: nat :: i <= x <= |a| ==> RowFilled(a, b, dp, x, 0)
      invariant forall x: nat, y: nat :: x < i && y <= |b| ==> dp[x, y] == 0
    {
      label before:
      FillRow(a, b, dp, i);
      forall x: nat | i < x <= |a| ensures RowFilled(a, b, dp, x, 0) {
        assert old@before(RowFilled(a, b, dp, x, 0));
      }
    }
    forall i: nat, j: nat | i <= |a| && j <= |b| ensures dp[i, j] == Cell(a, b, i, j) {
      assert RowFilled(a, b, dp, i, 0);
    }
  }

  /** The walk has turned the first i old lines into the first j new ones, and counted its changes. */
  ghost predicate Walked(lines: seq<Line>, additions: nat, deletions: nat, a: seq<string>, b: seq<string>, i: nat, j: nat)
    requires i <= |a| && j <= |b|
  {
    IsScript(lines, a[..i], b[..j]) && additions == Adds(lines) && deletions == Dels(lines)
  }

  lemma WalkOn(lines: seq<Line>, additions: nat, deletions: nat, a: seq<string>, b: seq<string>, i: nat, j: nat, l: Line)
    requires i <= |a| && j <= |b| && Walked(lines, additions, deletions, a, b, i, j)
    requires IsEdit(l) && (!l.Add? ==> i < |a| && l.text == a[i]) && (!l.Del? ==> j < |b| && l.text == b[j])
    ensures Kept(lines + [l]) == Kept(lines) + (if l.Ctx? then 1 else 0)
    ensures Walked(lines + [l], additions + (if l.Add? then 1 else 0), deletions + (if l.Del? then 1 else 0),
                   a, b, if l.Add? then i else i + 1, if l.Del? then j else j + 1)
  {
    CountAppend(lines, l);
    OldAppend(lines, l);
    NewAppend(lines, l);
    TakeMore(a, i);
    TakeMore(b, j);
  }

  lemma TakeMore(a: seq<string>, i: nat)
    requires i <= |a|
    ensures i < |a| ==> a[..i + 1] == a[..i] + [a[i]]
    ensures a[..i] == a[..i] + []
  {
  }

  /** The greedy walk. Whatever the table holds, the result spells both texts and is counted
      correctly; with an exact table it keeps a longest common subsequence. */
  method Walk(a: seq<string>, b: seq<string>, dp: array2<int>) returns (lines: seq<Line>, additions: nat, deletions: nat)
    requires dp.Length0 == |a| + 1 && dp.Length1 == |b| + 1
    ensures IsScript(lines, a, b)
    ensures additions == Adds(lines) && deletions == Dels(lines)
    ensures (forall i: nat, j: nat :: i <= |a| && j <= |b| ==> dp[i, j] == Lcs(a, b, i, j)) ==> Kept(lines) == Lcs(a, b, 0, 0)
  {
    var n, m := |a|, |b|;
    var i: nat, j: nat := 0, 0;
    lines, additions, deletions := [], 0, 0;
    ghost var exact := forall i: nat, j: nat :: i <= |a| && j <= |b| ==> dp[i, j] == Lcs(a, b, i, j);
    while i < n && j < m
      invariant i <= n && j <= m
      invariant Walked(lines, additions, deletions, a, b, i, j)
      invariant exact ==> Kept(lines) + Lcs(a, b, i, j) == Lcs(a, b, 0, 0)
      decreases n - i + m - j
    {
      var l := if a[i] == b[j] then Ctx(a[i]) else if dp[i + 1, j] >= dp[i, j + 1] then Del(a[i]) else Add(b[j]);
      WalkOn(lines, additions, deletions, a, b, i, j, l);
      lines := lines + [l];
      if l.Ctx? { i, j := i + 1, j + 1; }
      else if l.Del? { i, deletions := i + 1, deletions + 1; }
      else { j, additions := j + 1, additions + 1; }
    }
    while i < n
      invariant i <= n && j <= m && (i == n || j == m)
      invariant Walked(lines, additions, deletions, a, b, i, j)
      invariant exact ==> Kept(lines) == Lcs(a, b, 0, 0)
    {
      WalkOn(lines, additions, deletions, a, b, i, j, Del(a[i]));
      lines, deletions, i := lines + [Del(a[i])], deletions + 1, i + 1;
    }
    while j < m
      invariant i == n && j <= m
      invariant Walked(lines, additions, deletions, a, b, i, j)
      invariant exact ==> Kept(lines) == Lcs(a, b, 0, 0)
    {
      WalkOn(lines, additions, deletions, a, b, i, j, Add(b[j]));
      lines, additions, j := lines + [Add(b[j])], additions + 1, j + 1;
    }
    assert a[..n] == a && b[..m] == b;
  }

  // ---- folding ----

  ghost predicate AllCtx(s: seq<Line>) { forall k :: 0 <= k < |s| ==> s[k].Ctx? }

  /** `out` shows `lines` with nothing but context hidden: an ordinary entry stands for itself and a
      marker for exactly as many context lines as it says, never fewer than three. */
  ghost predicate Shows(out: seq<Line>, lines: seq<Line>) {
    if out == [] then lines == []
    else if out[0].Fold? then
      var k := out[0].hidden;
      3 <= k <= |lines| && AllCtx(lines[..k]) && Shows(out[1..], lines[k..])
    else
      lines != [] && lines[0] == out[0] && Shows(out[1..], lines[1..])
  }

  /** How many lines an output stands for. */
  function Weight(out: seq<Line>): nat {
    if out == [] then 0 else (if out[0].Fold? then out[0].hidden else 1) + Weight(out[1..])
  }

  function Changes(s: seq<Line>): seq<Line> {
    if s == [] then [] else (if s[0].Add? || s[0].Del? then [s[0]] else []) + Changes(s[1..])
  }

  lemma {:induction false} ChangesOfCtx(c: seq<Line>, s: seq<Line>)
    requires AllCtx(c)
    ensures Changes(c + s) == Changes(s)
  {
    if c == [] {
      assert c + s == s;
    } else {
      ChangesOfCtx(c[1..], s);
      assert (c + s)[1..] == c[1..] + s;
    }
  }

  /** Folding loses no line from the count and no change from the sequence. */
  lemma {:induction false} ShowsConserves(out: seq<Line>, lines: seq<Line>)
    requires Shows(out, lines)
    ensures Weight(out) == |lines|
    ensures Changes(out) == Changes(lines)
  {
    if out != [] {
      var k := if out[0].Fold? then out[0].hidden else 1;
      ShowsConserves(out[1..], lines[k..]);
      if out[0].Fold? {
        ChangesOfCtx(lines[..k], lines[k..]);
        assert lines == lines[..k] + lines[k..];
        assert Changes(out) == [] + Changes(out[1..]);
      } else {
        assert Changes(lines) == (if lines[0].Add? || lines[0].Del? then [lines[0]] else []) + Changes(lines[1..]);
      }
    }
  }

  lemma {:induction false} ShowsAppend(out: seq<Line>, lines: seq<Line>, out2: seq<Line>, lines2: seq<Line>)
    requires Shows(out, lines) && Shows(out2, lines2)
    ensures Shows(out + out2, lines + lines2)
  {
    if out == [] {
      assert out + out2 == out2 && lines + lines2 == lines2;
    } else {
      var k := if out[0].Fold? then out[0].hidden else 1;
      ShowsAppend(out[1..], lines[k..], out2, lines2);
      assert (out + out2)[1..] == out[1..] + out2;
      assert (lines + lines2)[k..] == lines[k..] + lines2;
      assert (lines + lines2)[..k] == lines[..k];
    }
  }

  lemma {:induction false} ShowsItself(lines: seq<Line>)
    requires AllEdits(lines)
    ensures Shows(lines, lines)
  {
    if lines != [] { ShowsItself(lines[1..]); }
  }

  /** The two-line margins kept around a hidden run. */
  function Flushed(run: seq<Line>): seq<Line> {
    if |run| > 6 then [run[0], run[1], Fold(|run| - 4), run[|run| - 2], run[|run| - 1]] else run
  }

  lemma ShowsCons(l: Line, out: seq<Line>, lines: seq<Line>)
    requires !l.Fold? && Shows(out, lines)
    ensures Shows([l] + out, [l] + lines)
  {
    assert ([l] + out)[1..] == out && ([l] + lines)[1..] == lines;
  }

  lemma ShowsFold(hidden: seq<Line>, out: seq<Line>, lines: seq<Line>)
    requires AllCtx(hidden) && |hidden| >= 3 && Shows(out, lines)
    ensures Shows([Fold(|hidden|)] + out, hidden + lines)
  {
    assert ([Fold(|hidden|)] + out)[1..] == out;
    assert (hidden + lines)[|hidden|..] == lines && (hidden + lines)[..|hidden|] == hidden;
  }

  lemma MarginsShow(a: Line, b: Line, hidden: seq<Line>, tail: seq<Line>)
    requires AllCtx(hidden) && |hidden| >= 3 && AllEdits(tail) && !a.Fold? && !b.Fold?
    ensures Shows([a] + ([b] + ([Fold(|hidden|)] + tail)), [a] + ([b] + (hidden + tail)))
  {
    ShowsItself(tail);
    ShowsFold(hidden, tail, tail);
    ShowsCons(b, [Fold(|hidden|)] + tail, hidden + tail);
    ShowsCons(a, [b] + ([Fold(|hidden|)] + tail), [b] + (hidden + tail));
  }

  lemma FlushedShows(run: seq<Line>)
    requires AllCtx(run)
    ensures Shows(Flushed(run), run)
  {
    if |run| > 6 {
      var n := |run|;
      var tail := [run[n - 2], run[n - 1]];
      MarginsShow(run[0], run[1], run[2..n - 2], tail);
      assert run == [run[0]] + ([run[1]] + (run[2..n - 2] + tail));
      assert Flushed(run) == [run[0]] + ([run[1]] + ([Fold(n - 4)] + tail));
    } else {
      ShowsItself(run);
    }
  }

  /** The length of the leading run of context lines. */
  function Leading(lines: seq<Line>): (n: nat)
    ensures n <= |lines| && AllCtx(lines[..n])
    ensures n < |lines| ==> !lines[n].Ctx?
  {
    if lines == [] || !lines[0].Ctx? then 0 else 1 + Leading(lines[1..])
  }

  /** The folding of a script, run by maximal run. */
  function FoldRuns(lines: seq<Line>): seq<Line>
    decreases |lines|
  {
    var n := Leading(lines);
    Flushed(lines[..n]) + (if n == |lines| then [] else [lines[n]] + FoldRuns(lines[n + 1..]))
  }

  lemma ShowsGlue(x: seq<Line>, run: seq<Line>, l: Line, y: seq<Line>, rest: seq<Line>)
    requires Shows(x, run) && !l.Fold? && Shows(y, rest)
    ensures Shows(x + ([l] + y), run + ([l] + rest))
  {
    ShowsCons(l, y, rest);
    ShowsAppend(x, run, [l] + y, [l] + rest);
  }

  /** A script is its leading run, the line after it, and the rest, and so is its folding. */
  lemma FoldRunsSplit(lines: seq<Line>) returns (run: seq<Line>, rest: seq<Line>)
    ensures AllCtx(run) && run == lines[..Leading(lines)]
    ensures Leading(lines) == |lines| ==> lines == run && FoldRuns(lines) == Flushed(run)
    ensures Leading(lines) < |lines| ==>
      var l := lines[Leading(lines)];
      && !l.Ctx? && |rest| < |lines| && rest == lines[Leading(lines) + 1..]
      && lines == run + ([l] + rest) && FoldRuns(lines) == Flushed(run) + ([l] + FoldRuns(rest))
  {
    var n := Leading(lines);
    run := lines[..n];
    rest := if n == |lines| then [] else lines[n + 1..];
    assert n == |lines| ==> Flushed(run) + [] == Flushed(run);
  }

  lemma {:induction false} FoldShows(lines: seq<Line>)
    requires AllEdits(lines)
    ensures Shows(FoldRuns(lines), lines)
    decreases |lines|
  {
    var run, rest := FoldRunsSplit(lines);
    FlushedShows(run);
    if Leading(lines) < |lines| {
      FoldShows(rest);
      ShowsGlue(Flushed(run), run, lines[Leading(lines)], FoldRuns(rest), rest);
    }
  }

  lemma {:induction false} LeadingOf(run: seq<Line>, rest: seq<Line>)
    requires AllCtx(run) && (rest == [] || !rest[0].Ctx?)
    ensures Leading(run + rest) == |run|
  {
    if run == [] {
      assert run + rest == rest;
    } else {
      assert (run + rest)[1..] == run[1..] + rest;
      LeadingOf(run[1..], rest);
    }
  }

  method FoldContext(lines: seq<Line>) returns (out: seq<Line>)
    ensures out == FoldRuns(lines)
  {
    out := [];
    var run: seq<Line> := [];
    ghost var whole := FoldRuns(lines);
    FoldStarted(lines);
    for k := 0 to |lines|
      invariant FoldGoesOn(out, run, lines[k..], whole)
    {
      FoldAt(out, run, lines, k, whole);
      if lines[k].Ctx? {
        run := run + [lines[k]];
      } else {
        out := out + Flushed(run) + [lines[k]];
        run := [];
      }
    }
    FoldEnded(out, run, lines[|lines|..], whole);
    out := out + Flushed(run);
  }

  /** What is out, then the open run, then the rest, folds like the whole. */
  ghost predicate FoldGoesOn(out: seq<Line>, run: seq<Line>, rest: seq<Line>, whole: seq<Line>) {
    AllCtx(run) && out + FoldRuns(run + rest) == whole
  }

  lemma FoldStarted(lines: seq<Line>)
    ensures FoldGoesOn([], [], lines[0..], FoldRuns(lines))
  {
    assert [] + lines[0..] == lines;
    assert [] + FoldRuns(lines) == FoldRuns(lines);
  }

  lemma FoldStep(out: seq<Line>, run: seq<Line>, l: Line, rest: seq<Line>, whole: seq<Line>)
    requires FoldGoesOn(out, run, [l] + rest, whole)
    ensures l.Ctx? ==> FoldGoesOn(out, run + [l], rest, whole)
    ensures !l.Ctx? ==> FoldGoesOn(out + Flushed(run) + [l], [], rest, whole)
  {
    if l.Ctx? { FoldExtends(out, run, l, rest, whole); } else { FoldFlushes(out, run, l, rest, whole); }
  }

  lemma FoldAt(out: seq<Line>, run: seq<Line>, lines: seq<Line>, k: nat, whole: seq<Line>)
    requires k < |lines| && FoldGoesOn(out, run, lines[k..], whole)
    ensures lines[k].Ctx? ==> FoldGoesOn(out, run + [lines[k]], lines[k + 1..], whole)
    ensures !lines[k].Ctx? ==> FoldGoesOn(out + Flushed(run) + [lines[k]], [], lines[k + 1..], whole)
  {
    assert lines[k..] == [lines[k]] + lines[k + 1..];
    FoldStep(out, run, lines[k], lines[k + 1..], whole);
  }

  lemma FoldExtends(out: seq<Line>, run: seq<Line>, l: Line, rest: seq<Line>, whole: seq<Line>)
    requires FoldGoesOn(out, run, [l] + rest, whole) && l.Ctx?
    ensures FoldGoesOn(out, run + [l], rest, whole)
  {
    assert run + ([l] + rest) == run + [l] + rest;
  }

  lemma FoldFlushes(out: seq<Line>, run: seq<Line>, l: Line, rest: seq<Line>, whole: seq<Line>)
    requires FoldGoesOn(out, run, [l] + rest, whole) && !l.Ctx?
    ensures FoldGoesOn(out + Flushed(run) + [l], [], rest, whole)
  {
    FoldRunsAt(run, l, rest);
    Regroup(out, Flushed(run), l, FoldRuns(rest));
    NoRun(rest);
  }

  lemma NoRun(rest: seq<Line>)
    ensures [] + rest == rest
  {
  }

  lemma Regroup(x: seq<Line>, y: seq<Line>, l: Line, z: seq<Line>)
    ensures x + (y + ([l] + z)) == x + y + [l] + z
  {
  }

  lemma FoldEnded(out: seq<Line>, run: seq<Line>, rest: seq<Line>, whole: seq<Line>)
    requires FoldGoesOn(out, run, rest, whole) && |rest| == 0
    ensures out + Flushed(run) == whole
  {
    LeadingOf(run, []);
    assert run + rest == run && run[..|run|] == run;
    assert Flushed(run) + [] == Flushed(run);
  }

  lemma FoldRunsAt(run: seq<Line>, l: Line, rest: seq<Line>)
    requires AllCtx(run) && !l.Ctx?
    ensures FoldRuns(run + ([l] + rest)) == Flushed(run) + ([l] + FoldRuns(rest))
  {
    var all := run + ([l] + rest);
    LeadingOf(run, [l] + rest);
    assert all[..|run|] == run && all[|run|] == l && all[|run| + 1..] == rest;
  }

  // ---- a folded script is as short as it should be ----

  predicate IsChange(l: Line) { l.Add? || l.Del? }

  /** A marker stands between two context lines on either side, the last two before it and the first two after
      it of an unbroken run: beyond them is a change, or nothing. */
  ghost predicate Margined(out: seq<Line>, i: nat)
    requires i < |out|
  {
    && 2 <= i < |out| - 2 && out[i - 2].Ctx? && out[i - 1].Ctx? && out[i + 1].Ctx? && out[i + 2].Ctx?
    && (i == 2 || IsChange(out[i - 3])) && (i + 3 == |out| || IsChange(out[i + 3]))
  }

  ghost predicate Broken(out: seq<Line>, i: nat)
    requires i + 7 <= |out|
  {
    exists j :: i <= j < i + 7 && !out[j].Ctx?
  }

  /** No seven context lines in a row are left, and every marker has its margins. */
  ghost predicate Compact(out: seq<Line>) {
    && (forall i: nat :: i + 7 <= |out| ==> Broken(out, i))
    && (forall i :: 0 <= i < |out| && out[i].Fold? ==> Margined(out, i))
  }

  lemma FlushedIsCompact(run: seq<Line>)
    requires AllCtx(run)
    ensures Compact(Flushed(run))
  {
  }

  lemma CompactJoins(x: seq<Line>, l: Line, y: seq<Line>)
    requires Compact(x) && IsChange(l) && Compact(y)
    ensures Compact(x + [l] + y)
  {
    var out := x + [l] + y;
    var n := |x|;
    assert out[n] == l && forall k :: n < k < |out| ==> out[k] == y[k - n - 1];
    forall i: nat | i + 7 <= |out| ensures Broken(out, i) {
      if i + 7 <= n {
        assert Broken(x, i);
        var j :| i <= j < i + 7 && !x[j].Ctx?;
        assert !out[j].Ctx?;
      } else if i > n {
        assert Broken(y, i - n - 1);
        var j :| i - n - 1 <= j < i - n + 6 && !y[j].Ctx?;
        assert !out[j + n + 1].Ctx?;
      } else {
        assert !out[n].Ctx?;
      }
    }
    forall i | 0 <= i < |out| && out[i].Fold? ensures Margined(out, i) {
      if i < n { assert Margined(x, i); } else { assert Margined(y, i - n - 1); }
    }
  }

  /** Folding leaves no long run of context and hides only what lies between its margins. */
  lemma {:induction false} FoldIsCompact(lines: seq<Line>)
    requires AllEdits(lines)
    ensures Compact(FoldRuns(lines))
    decreases |lines|
  {
    var run, rest := FoldRunsSplit(lines);
    FlushedIsCompact(run);
    if Leading(lines) < |lines| {
      var l := lines[Leading(lines)];
      FoldIsCompact(rest);
      CompactJoins(Flushed(run), l, FoldRuns(rest));
      assert Flushed(run) + ([l] + FoldRuns(rest)) == Flushed(run) + [l] + FoldRuns(rest);
    }
  }

  // ---- the exported function ----

  /** What the caller may rely on before the result is cut to its first 600 entries. */
  ghost predicate Explains(full: seq<Line>, script: seq<Line>, additions: nat, deletions: nat, a: seq<string>, b: seq<string>) {
    IsScript(script, a, b) && full == FoldRuns(script) && Shows(full, script) && Compact(full) && additions == Adds(script) && deletions == Dels(script)
  }

  ghost predicate Minimal(script: seq<Line>, a: seq<string>, b: seq<string>) {
    forall other :: IsScript(other, a, b) ==> Adds(script) + Dels(script) <= Adds(other) + Dels(other)
  }

  method LineDiff(oldText: string, newText: string, cap: int) returns (lines: seq<Line>, additions: nat, deletions: nat)
    ensures additions - deletions == |Split(newText)| - |Split(oldText)|
    ensures |lines| <= SHOWN
    ensures |Split(oldText)| * |Split(newText)| > cap * cap ==>
              lines == [Rewritten(|Split(oldText)|, |Split(newText)|)] && deletions == |Split(oldText)|
    ensures |Split(oldText)| * |Split(newText)| <= cap * cap ==>
              exists full, script {:trigger Explains(full, script, additions, deletions, Split(oldText), Split(newText))} ::
                && Explains(full, script, additions, deletions, Split(oldText), Split(newText))
                && (-UINT16 < cap < UINT16 ==> Minimal(script, Split(oldText), Split(newText)))
                && lines == full[..Min(|full|, SHOWN)]
  {
    var a, b := Split(oldText), Split(newText);
    if |a| * |b| > cap * cap {
      return [Rewritten(|a|, |b|)], |b|, |a|;
    }
    var dp := FillTable(a, b);
    var script;
    script, additions, deletions := Walk(a, b, dp);
    ScriptCounts(script, a, b);
    var full := FoldContext(script);
    FoldShows(script);
    FoldIsCompact(script);
    if -UINT16 < cap < UINT16 {
      forall i: nat, j: nat | i <= |a| && j <= |b| ensures dp[i, j] == Lcs(a, b, i, j) { NoCellWraps(a, b, cap, i, j); }
      forall other | IsScript(other, a, b) ensures Adds(script) + Dels(script) <= Adds(other) + Dels(other) {
        FewestChanges(script, other, a, b);
      }
    }
    assert Explains(full, script, additions, deletions, a, b);
    lines := full[..Min(|full|, SHOWN)];
  }
}
