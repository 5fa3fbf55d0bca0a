/** The CPU reference of the draft-token selector: the best k tokens of every row, and a greedy path through them. */
module Selector {
  import opened Arithmetic

  /** A token with its logit. Logits and scores are numbers standing for the total order on their bit patterns, so two
      of them are equal exactly when their bits are. */
  datatype Candidate = Candidate(id: nat, logit: int)

  /** Larger logits first, ties by smaller token. */
  predicate Before(a: Candidate, b: Candidate) {
    a.logit > b.logit || (a.logit == b.logit && a.id < b.id)
  }

  ghost predicate Sorted(s: seq<Candidate>) {
    forall i, j :: 0 <= i < j < |s| ==> Before(s[i], s[j])
  }

  // ---------------------------------------------------------------- the full sort, and its first k

  ghost predicate InRow(row: seq<int>, c: Candidate) { c.id < |row| && c.logit == row[c.id] }

  /** `s` lists every token of the row once, best first. */
  ghost predicate IsFullSort(row: seq<int>, s: seq<Candidate>) {
    && Sorted(s) && |s| == |row|
    && (forall i :: 0 <= i < |s| ==> InRow(row, s[i]))
    && (forall c :: InRow(row, c) ==> c in s)
  }

  /** How many of these candidates come before c. */
  function Rank(s: seq<Candidate>, c: Candidate): (n: nat)
    ensures n <= |s|
  {
    if s == [] || !Before(s[0], c) then 0 else Rank(s[1..], c) + 1
  }

  lemma {:induction false} RankSplits(s: seq<Candidate>, c: Candidate)
    requires Sorted(s)
    ensures forall i :: 0 <= i < Rank(s, c) ==> Before(s[i], c)
    ensures forall i :: Rank(s, c) <= i < |s| ==> !Before(s[i], c)
  {
    if s != [] {
      if Before(s[0], c) {
        RankSplits(s[1..], c);
        assert forall i :: 0 < i < |s| ==> s[i] == s[1..][i - 1];
      } else {
        assert forall i :: 0 < i < |s| ==> Before(s[0], s[i]);
      }
    }
  }

  function Insert(s: seq<Candidate>, c: Candidate): seq<Candidate> {
    s[..Rank(s, c)] + [c] + s[Rank(s, c)..]
  }

  function FullSort(row: seq<int>): (s: seq<Candidate>)
    ensures |s| == |row|
  {
    if row == [] then [] else Insert(FullSort(row[..|row| - 1]), Candidate(|row| - 1, row[|row| - 1]))
  }

  lemma InsertSorted(s: seq<Candidate>, c: Candidate)
    requires Sorted(s) && forall i :: 0 <= i < |s| ==> s[i].id != c.id
    ensures Sorted(Insert(s, c))
  {
    RankSplits(s, c);
  }

  /** Inserting the tokens one by one sorts the row. */
  lemma {:induction false} FullSortSorts(row: seq<int>)
    ensures IsFullSort(row, FullSort(row))
  {
    if row != [] {
      var front, c := row[..|row| - 1], Candidate(|row| - 1, row[|row| - 1]);
      var s := FullSort(front);
      FullSortSorts(front);
      InsertSorted(s, c);
      var r := Insert(s, c);
      forall i | 0 <= i < |r| ensures InRow(row, r[i]) {
        var n := Rank(s, c);
        assert r[i] == if i < n then s[i] else if i == n then c else s[i - 1];
      }
      forall d | InRow(row, d) ensures d in r {
        if d.id < |front| { assert InRow(front, d) && d in s; InsertKeeps(s, c, d); } else { assert d == c; }
      }
    }
  }

  lemma InsertKeeps(s: seq<Candidate>, c: Candidate, d: Candidate)
    requires d in s
    ensures d in Insert(s, c)
  {
    var i :| 0 <= i < |s| && s[i] == d;
    assert Insert(s, c)[if i < Rank(s, c) then i else i + 1] == d;
  }

  /** A row has only one full sort. */
  lemma {:induction false} FullSortUnique(a: seq<Candidate>, b: seq<Candidate>)
    requires Sorted(a) && Sorted(b) && |a| == |b| && forall c :: c in a <==> c in b
    ensures a == b
  {
    if a != [] {
      SameFirst(a, b);
      forall c | c in a[1..] ensures c in b[1..] { TailMember(a, c); NotFirst(b, c); }
      forall c | c in b[1..] ensures c in a[1..] { TailMember(b, c); NotFirst(a, c); }
      FullSortUnique(a[1..], b[1..]);
      assert a == [a[0]] + a[1..] && b == [b[0]] + b[1..];
    }
  }

  lemma SameFirst(a: seq<Candidate>, b: seq<Candidate>)
    requires Sorted(a) && Sorted(b) && |a| == |b| > 0 && forall c :: c in a <==> c in b
    ensures a[0] == b[0]
  {
    assert a[0] in a && b[0] in b;
    var i :| 0 <= i < |b| && b[i] == a[0];
    var j :| 0 <= j < |a| && a[j] == b[0];
  }

  lemma TailMember(s: seq<Candidate>, c: Candidate)
    requires Sorted(s) && s != [] && c in s[1..]
    ensures c in s && c != s[0]
  {
    var i :| 0 <= i < |s[1..]| && s[1..][i] == c;
    assert s[i + 1] == c && Before(s[0], s[i + 1]);
  }

  lemma NotFirst(s: seq<Candidate>, c: Candidate)
    requires s != [] && c in s && c != s[0]
    ensures c in s[1..]
  {
    var i :| 0 <= i < |s| && s[i] == c;
    assert s[1..][i - 1] == c;
  }

  function Top(s: seq<Candidate>, k: nat): (r: seq<Candidate>)
    ensures |r| == if |s| < k then |s| else k
  {
    if k < |s| then s[..k] else s
  }

  /** Inserting into the first k and cutting again is the first k of inserting into the whole. */
  lemma InsertIntoTop(s: seq<Candidate>, c: Candidate, k: nat)
    requires Sorted(s)
    ensures Rank(Top(s, k), c) == if Rank(s, c) < k then Rank(s, c) else |Top(s, k)|
    ensures Rank(s, c) < k ==> Top(Insert(Top(s, k), c), k) == Top(Insert(s, c), k)
    ensures Rank(s, c) >= k ==> Top(s, k) == Top(Insert(s, c), k)
  {
    RankOfTop(s, c, k);
  }

  lemma {:induction false} RankIs(s: seq<Candidate>, c: Candidate, n: nat)
    requires Sorted(s) && n <= |s|
    requires (forall i :: 0 <= i < n ==> Before(s[i], c)) && (n < |s| ==> !Before(s[n], c))
    ensures Rank(s, c) == n
  {
    if n > 0 {
      assert Before(s[0], c) && (n < |s| ==> s[1..][n - 1] == s[n]);
      RankIs(s[1..], c, n - 1);
    }
  }

  lemma RankOfTop(s: seq<Candidate>, c: Candidate, k: nat)
    requires Sorted(s)
    ensures Rank(Top(s, k), c) == if Rank(s, c) < k then Rank(s, c) else |Top(s, k)|
  {
    RankSplits(s, c);
    RankIs(Top(s, k), c, if Rank(s, c) < k then Rank(s, c) else |Top(s, k)|);
  }

  // ---------------------------------------------------------------- every row

  function RowAt(logits: seq<int>, vocab: nat, r: nat): seq<int>
    requires (r + 1) * vocab <= |logits|
  {
    assert r * vocab <= (r + 1) * vocab by { assert (r + 1) * vocab == r * vocab + vocab; }
    logits[r * vocab..(r + 1) * vocab]
  }

  /** The first k of the full sort of each of the first n rows, one after another. */
  function TopRows(logits: seq<int>, vocab: nat, k: nat, n: nat): seq<Candidate>
    requires n * vocab <= |logits|
  {
    if n == 0 then []
    else
      assert (n - 1) * vocab + vocab == n * vocab;
      TopRows(logits, vocab, k, n - 1) + Top(FullSort(RowAt(logits, vocab, n - 1)), k)
  }

  /** Where the token belongs among the candidates from `base` on. */
  method BinarySearch(output: seq<Candidate>, base: nat, c: Candidate) returns (insertion: nat)
    requires base <= |output| && Sorted(output[base..])
    ensures insertion == Rank(output[base..], c)
  {
    ghost var s := output[base..];
    var low, high := 0, |output| - base;
    while low < high
      invariant 0 <= low <= high <= |s|
      invariant forall i :: 0 <= i < low ==> Before(s[i], c)
      invariant high < |s| ==> !Before(s[high], c)
    {
      var middle := (low + high) / 2;
      assert s[middle] == output[base + middle];
      if Before(output[base + middle], c) {
        BeforeAll(s, middle, c);
        low := middle + 1;
      } else {
        high := middle;
      }
    }
    RankIs(s, c, low);
    insertion := low;
  }

  lemma BeforeAll(s: seq<Candidate>, n: nat, c: Candidate)
    requires Sorted(s) && n < |s| && Before(s[n], c)
    ensures forall i :: 0 <= i <= n ==> Before(s[i], c)
  {
  }

  /** The best k tokens of every whole row: exactly the first k of that row's full sort, rows in order. */
  method CpuTopKRows(logits: seq<int>, vocab: nat, k: nat) returns (output: seq<Candidate>)
    requires vocab > 0
    ensures |logits| / vocab * vocab <= |logits| && output == TopRows(logits, vocab, k, |logits| / vocab)
  {
    hide FullSort, Top;
    output := [];
    var rows := |logits| / vocab;
    assert rows * vocab + |logits| % vocab == |logits|;
    for r := 0 to rows
      invariant r * vocab <= |logits| && output == TopRows(logits, vocab, k, r)
    {
      RowFits(r, rows, vocab);
      output := AppendRow(output, logits[r * vocab..(r + 1) * vocab], k);
    }
  }

  /** One row: its tokens go in one by one, behind everything found for earlier rows. */
  method AppendRow(before: seq<Candidate>, row: seq<int>, k: nat) returns (output: seq<Candidate>)
    ensures output == before + Top(FullSort(row), k)
  {
    var base := |before|;
    output := before;
    assert row[..0] == [] && FullSort([]) == [] && Top([], k) == [];
    hide FullSort, Top;
    for token := 0 to |row|
      invariant base <= |output| && output[..base] == before
      invariant output[base..] == Top(FullSort(row[..token]), k)
    {
      output := InsertToken(output, base, row, token, k);
    }
    assert row[..|row|] == row && output == output[..base] + output[base..];
  }

  /** One turn of the inner loop; what was found for earlier rows is not touched. */
  method InsertToken(before: seq<Candidate>, base: nat, row: seq<int>, token: nat, k: nat)
    returns (output: seq<Candidate>)
    requires token < |row| && base <= |before| && before[base..] == Top(FullSort(row[..token]), k)
    ensures base <= |output| && output[..base] == before[..base]
    ensures output[base..] == Top(FullSort(row[..token + 1]), k)
  {
    output := before;
    hide Rank, FullSort, Sorted, Top, Insert;
    ghost var sorted, c := FullSort(row[..token]), Candidate(token, row[token]);
    SortOneMore(row, token);
    TopSorted(sorted, k);
    InsertIntoTop(sorted, c, k);
    var insertion := BinarySearch(output, base, Candidate(token, row[token]));
    if insertion < k {
      InsertAfter(before, base, insertion, c);
      output := output[..base + insertion] + [Candidate(token, row[token])] + output[base + insertion..];
      TruncateAfter(output, base, k);
      if |output| > base + k { output := output[..base + k]; }
    }
  }

  lemma SortOneMore(row: seq<int>, token: nat)
    requires token < |row|
    ensures Sorted(FullSort(row[..token]))
    ensures FullSort(row[..token + 1]) == Insert(FullSort(row[..token]), Candidate(token, row[token]))
  {
    FullSortSorts(row[..token]);
    assert row[..token + 1][..token] == row[..token];
  }

  lemma TopSorted(s: seq<Candidate>, k: nat)
    requires Sorted(s)
    ensures Sorted(Top(s, k))
  {
  }

  lemma InsertAfter(output: seq<Candidate>, base: nat, insertion: nat, c: Candidate)
    requires base <= |output| && insertion == Rank(output[base..], c)
    ensures
      var next := output[..base + insertion] + [c] + output[base + insertion..];
      next[..base] == output[..base] && next[base..] == Insert(output[base..], c)
  {
  }

  lemma TruncateAfter(output: seq<Candidate>, base: nat, k: nat)
    requires base <= |output|
    ensures
      var next := if |output| > base + k then output[..base + k] else output;
      base <= |next| && next[..base] == output[..base] && next[base..] == Top(output[base..], k)
  {
  }

  // ---------------------------------------------------------------- the greedy path

  /** How a candidate scores after a predecessor at a step: its logit plus the learned transition, as the source adds
      them. The floating-point sum is not part of this model; only the total order of the results matters. */
  type Scorer = (nat, nat, Candidate) -> int

  /** No candidate of the slice scores higher, and none that scores as high has a smaller token. */
  ghost predicate IsBest(score: Scorer, predecessor: nat, step: nat, slice: seq<Candidate>, id: nat) {
    exists c :: c in slice && c.id == id && forall d :: d in slice ==>
      score(predecessor, step, d) < score(predecessor, step, c)
      || (score(predecessor, step, d) == score(predecessor, step, c) && c.id <= d.id)
  }

  lemma BestIsUnique(score: Scorer, predecessor: nat, step: nat, slice: seq<Candidate>, other: seq<Candidate>, a: nat,
      b: nat)
    requires multiset(slice) == multiset(other)
    requires IsBest(score, predecessor, step, slice, a) && IsBest(score, predecessor, step, other, b)
    ensures a == b
  {
    assert forall c :: c in slice <==> c in multiset(slice);
    assert forall c :: c in other <==> c in multiset(other);
  }

  /** The candidates of a step; none past the end. */
  function Slice(candidates: seq<Candidate>, k: nat, step: nat): seq<Candidate> {
    if 0 <= step * k <= (step + 1) * k <= |candidates| then candidates[step * k..(step + 1) * k] else []
  }

  /** The token a step starts from. */
  function Previous(anchor: nat, path: seq<nat>, step: nat): nat
    requires step <= |path|
  {
    if step == 0 then anchor else path[step - 1]
  }

  /** At every step the path takes the best candidate after the token it took before, starting from the anchor. */
  ghost predicate IsGreedy(score: Scorer, anchor: nat, candidates: seq<Candidate>, k: nat, path: seq<nat>) {
    forall step :: 0 <= step < |path| ==>
      IsBest(score, Previous(anchor, path, step), step, Slice(candidates, k, step), path[step])
  }

  method BestOf(score: Scorer, predecessor: nat, step: nat, slice: seq<Candidate>) returns (selected: nat)
    requires slice != []
    ensures IsBest(score, predecessor, step, slice, selected)
  {
    var best, bestScore := slice[0], score(predecessor, step, slice[0]);
    for i := 1 to |slice|
      invariant best in slice && bestScore == score(predecessor, step, best)
      invariant forall j :: 0 <= j < i ==>
                  score(predecessor, step, slice[j]) < bestScore
                  || (score(predecessor, step, slice[j]) == bestScore && best.id <= slice[j].id)
    {
      var candidate := slice[i];
      var s := score(predecessor, step, candidate);
      if s > bestScore || (s == bestScore && candidate.id < best.id) {
        best, bestScore := candidate, s;
      }
    }
    selected := best.id;
  }

  lemma StepFits(step: nat, steps: nat, k: nat, count: nat)
    requires step < steps && steps * k <= count && k > 0
    ensures 0 <= step * k < (step + 1) * k <= count
  {
    RowFits(step, steps, k);
    NotNegative(step, k);
  }

  /** The greedy path, one token a step. */
  method SelectPath(score: Scorer, anchor: nat, candidates: seq<Candidate>, k: nat, steps: nat)
    returns (output: seq<nat>)
    requires k > 0 && steps * k <= |candidates|
    ensures |output| == steps && IsGreedy(score, anchor, candidates, k, output)
  {
    hide IsGreedy, IsBest;
    output := [];
    NoSteps(score, anchor, candidates, k);
    var predecessor := anchor;
    for step := 0 to steps
      invariant |output| == step && predecessor == Previous(anchor, output, step)
      invariant IsGreedy(score, anchor, candidates, k, output)
    {
      StepFits(step, steps, k, |candidates|);
      var slice := candidates[step * k..(step + 1) * k];
      var selected := BestOf(score, predecessor, step, slice);
      GreedyExtends(score, anchor, candidates, k, output, selected);
      output := output + [selected];
      predecessor := selected;
    }
  }

  lemma NoSteps(score: Scorer, anchor: nat, candidates: seq<Candidate>, k: nat)
    ensures IsGreedy(score, anchor, candidates, k, [])
  {
  }

  lemma GreedyExtends(score: Scorer, anchor: nat, candidates: seq<Candidate>, k: nat, path: seq<nat>, id: nat)
    requires IsGreedy(score, anchor, candidates, k, path)
    requires IsBest(score, Previous(anchor, path, |path|), |path|, Slice(candidates, k, |path|), id)
    ensures IsGreedy(score, anchor, candidates, k, path + [id])
  {
    hide IsBest, Slice;
    var longer := path + [id];
    forall step | 0 <= step < |longer|
      ensures IsBest(score, Previous(anchor, longer, step), step, Slice(candidates, k, step), longer[step])
    {
      assert Previous(anchor, longer, step) == Previous(anchor, path, step);
    }
  }

  /** The path does not depend on the order of the candidates of a step. */
  lemma {:induction false} PathIgnoresOrder(
      score: Scorer, anchor: nat, a: seq<Candidate>, b: seq<Candidate>, k: nat, p: seq<nat>, q: seq<nat>)
    requires IsGreedy(score, anchor, a, k, p) && IsGreedy(score, anchor, b, k, q) && |p| == |q|
    requires forall step :: 0 <= step < |p| ==> multiset(Slice(a, k, step)) == multiset(Slice(b, k, step))
    ensures p == q
  {
    hide Slice, IsBest;
    if p != [] {
      var n := |p| - 1;
      PrefixGreedy(score, anchor, a, k, p);
      PrefixGreedy(score, anchor, b, k, q);
      PathIgnoresOrder(score, anchor, a, b, k, p[..n], q[..n]);
      assert Previous(anchor, p, n) == Previous(anchor, q, n) by {
        assert n > 0 ==> p[n - 1] == p[..n][n - 1] && q[n - 1] == q[..n][n - 1];
      }
      BestIsUnique(score, Previous(anchor, p, n), n, Slice(a, k, n), Slice(b, k, n), p[n], q[n]);
      assert p == p[..n] + [p[n]] && q == q[..n] + [q[n]];
    }
  }

  lemma PrefixGreedy(score: Scorer, anchor: nat, candidates: seq<Candidate>, k: nat, path: seq<nat>)
    requires IsGreedy(score, anchor, candidates, k, path) && path != []
    ensures IsGreedy(score, anchor, candidates, k, path[..|path| - 1])
  {
    hide IsBest, Slice;
    var front := path[..|path| - 1];
    forall step | 0 <= step < |front|
      ensures IsBest(score, Previous(anchor, front, step), step, Slice(candidates, k, step), front[step])
    {
      assert Previous(anchor, front, step) == Previous(anchor, path, step) && front[step] == path[step];
    }
  }

  lemma {:induction false} TopRowsLength(logits: seq<int>, vocab: nat, k: nat, n: nat)
    requires n * vocab <= |logits| && k <= vocab
    ensures |TopRows(logits, vocab, k, n)| == n * k
  {
    if n > 0 {
      RowFits(n - 1, n, vocab);
      TopRowsLength(logits, vocab, k, n - 1);
      assert |RowAt(logits, vocab, n - 1)| == vocab;
      RowFits(n - 1, n, k);
    }
  }

  /** The candidates of a step are the best k of that row, so the path runs through the rows' full sorts. */
  lemma {:induction false} StepSeesTopOfRow(logits: seq<int>, vocab: nat, k: nat, rows: nat, step: nat)
    requires step < rows && rows * vocab <= |logits| && k <= vocab
    ensures (step + 1) * vocab <= |logits|
    ensures Slice(TopRows(logits, vocab, k, rows), k, step) == Top(FullSort(RowAt(logits, vocab, step)), k)
  {
    hide FullSort, RowAt, TopRows, Slice, Top;
    if step == rows - 1 {
      LastRow(logits, vocab, k, rows);
    } else {
      EarlierSlice(logits, vocab, k, rows, step);
      StepSeesTopOfRow(logits, vocab, k, rows - 1, step);
    }
  }

  lemma EarlierSlice(logits: seq<int>, vocab: nat, k: nat, rows: nat, step: nat)
    requires step < rows - 1 && rows * vocab <= |logits| && k <= vocab
    ensures (rows - 1) * vocab <= |logits|
    ensures Slice(TopRows(logits, vocab, k, rows), k, step) == Slice(TopRows(logits, vocab, k, rows - 1), k, step)
  {
    LastRow(logits, vocab, k, rows);
    TopRowsLength(logits, vocab, k, rows - 1);
    hide FullSort, RowAt, TopRows, Slice, Top;
    SliceOfPrefix(TopRows(logits, vocab, k, rows - 1), TopRows(logits, vocab, k, rows), k, step, rows - 1);
  }

  lemma LastRow(logits: seq<int>, vocab: nat, k: nat, rows: nat)
    requires rows > 0 && rows * vocab <= |logits| && k <= vocab
    ensures (rows - 1) * vocab <= |logits| && rows * vocab <= |logits|
    ensures TopRows(logits, vocab, k, rows - 1) <= TopRows(logits, vocab, k, rows)
    ensures Slice(TopRows(logits, vocab, k, rows), k, rows - 1) == Top(FullSort(RowAt(logits, vocab, rows - 1)), k)
  {
    RowFits(rows - 1, rows, vocab);
    RowFits(rows - 1, rows, k);
    TopRowsLength(logits, vocab, k, rows - 1);
    var before, last := TopRows(logits, vocab, k, rows - 1), Top(FullSort(RowAt(logits, vocab, rows - 1)), k);
    assert |RowAt(logits, vocab, rows - 1)| == vocab;
    assert |last| == k && TopRows(logits, vocab, k, rows) == before + last;
    hide FullSort, RowAt, TopRows, Top;
    LastSlice(before, last, k, rows - 1);
  }

  lemma LastSlice(before: seq<Candidate>, last: seq<Candidate>, k: nat, step: nat)
    requires |before| == step * k && |last| == k
    ensures Slice(before + last, k, step) == last
  {
    assert (step + 1) * k == step * k + k;
  }

  lemma SliceOfPrefix(before: seq<Candidate>, all: seq<Candidate>, k: nat, step: nat, steps: nat)
    requires before <= all && |before| == steps * k && step < steps
    ensures Slice(all, k, step) == Slice(before, k, step)
  {
    RowFits(step, steps, k);
    NotNegative(step, k);
  }

  // ---------------------------------------------------------------- what the top k is, in numbers

  /** A token of a row is better than another: a larger logit, or an equal one and a smaller token. */
  predicate Better(row: seq<int>, a: nat, b: nat)
    requires a < |row| && b < |row|
  {
    row[a] > row[b] || (row[a] == row[b] && a < b)
  }

  /** The best k tokens of a row with their logits, best first; every token left out is worse than every one taken. */
  ghost predicate IsTopOf(row: seq<int>, k: nat, top: seq<Candidate>) {
    && |top| == (if |row| < k then |row| else k)
    && (forall i :: 0 <= i < |top| ==> top[i].id < |row| && top[i].logit == row[top[i].id])
    && (forall i, j :: 0 <= i < j < |top| ==> Better(row, top[i].id, top[j].id))
    && (forall t, i :: 0 <= t < |row| && 0 <= i < |top| && LeftOut(top, t) ==> Better(row, top[i].id, t))
  }

  predicate LeftOut(top: seq<Candidate>, token: nat) { forall i :: 0 <= i < |top| ==> top[i].id != token }

  lemma TakenIsIn(s: seq<Candidate>, k: nat, j: nat)
    requires j < |Top(s, k)|
    ensures !LeftOut(Top(s, k), s[j].id)
  {
    assert Top(s, k)[j] == s[j];
  }

  lemma SortIsTop(row: seq<int>, k: nat)
    ensures IsTopOf(row, k, Top(FullSort(row), k))
  {
    FullSortSorts(row);
    hide FullSort;
    var s, top := FullSort(row), Top(FullSort(row), k);
    forall i | 0 <= i < |top| ensures top[i].id < |row| && top[i].logit == row[top[i].id] {
      assert InRow(row, s[i]);
    }
    forall i, j | 0 <= i < j < |top| ensures Better(row, top[i].id, top[j].id) { assert Before(s[i], s[j]); }
    forall t, i | 0 <= t < |row| && 0 <= i < |top| && LeftOut(top, t) ensures Better(row, top[i].id, t) {
      assert InRow(row, Candidate(t, row[t]));
      var j :| 0 <= j < |s| && s[j] == Candidate(t, row[t]);
      if j < |top| { TakenIsIn(s, k, j); }
      assert Before(s[i], s[j]);
    }
  }

  lemma {:induction false} WideRows(logits: seq<int>, vocab: nat, k: nat, n: nat)
    requires n * vocab <= |logits| && vocab <= k
    ensures TopRows(logits, vocab, k, n) == TopRows(logits, vocab, vocab, n)
  {
    hide FullSort;
    if n > 0 {
      RowFits(n - 1, n, vocab);
      WideRows(logits, vocab, k, n - 1);
    }
  }

  /** What the rows' best tokens are, in numbers: in the part of the output that belongs to a row are as many tokens as
      asked for, or all there are, in falling order, and no token left out has a larger logit than one of them, nor an
      equal one and a smaller id. */
  lemma RowsAreBest(logits: seq<int>, vocab: nat, k: nat, rows: nat, r: nat)
    requires r < rows && rows * vocab <= |logits|
    ensures (r + 1) * vocab <= |logits|
    ensures
      var width := if k < vocab then k else vocab;
      && |TopRows(logits, vocab, k, rows)| == rows * width
      && IsTopOf(RowAt(logits, vocab, r), k, Slice(TopRows(logits, vocab, k, rows), width, r))
  {
    RowFits(r, rows, vocab);
    var width := if k < vocab then k else vocab;
    if vocab <= k { WideRows(logits, vocab, k, rows); }
    hide FullSort, TopRows, Slice, IsTopOf;
    TopRowsLength(logits, vocab, width, rows);
    StepSeesTopOfRow(logits, vocab, width, rows, r);
    RowWidth(logits, vocab, r);
    SortIsTop(RowAt(logits, vocab, r), k);
    assert Top(FullSort(RowAt(logits, vocab, r)), k) == Top(FullSort(RowAt(logits, vocab, r)), width);
  }

  lemma RowWidth(logits: seq<int>, vocab: nat, r: nat)
    requires (r + 1) * vocab <= |logits|
    ensures |RowAt(logits, vocab, r)| == vocab
    ensures forall t :: 0 <= t < vocab ==>
              0 <= r * vocab + t < |logits| && RowAt(logits, vocab, r)[t] == logits[r * vocab + t]
  {
    assert (r + 1) * vocab == r * vocab + vocab;
    NotNegative(r, vocab);
  }
}
