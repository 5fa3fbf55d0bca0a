/** Building a balanced decision dataset: paging for rows, the shuffled schedule, and taking one row per example. */
module Dataset {
  import opened Wrappers
  import opened Arithmetic

  function Count(s: seq<nat>, x: nat): (n: nat)
    ensures n <= |s|
  {
    if s == [] then 0 else Count(s[..|s| - 1], x) + (if s[|s| - 1] == x then 1 else 0)
  }

  lemma {:induction false} CountAppend(a: seq<nat>, b: seq<nat>, x: nat)
    ensures Count(a + b, x) == Count(a, x) + Count(b, x)
  {
    if b == [] {
      assert a + b == a;
    } else {
      assert (a + b)[..|a + b| - 1] == a + b[..|b| - 1];
      CountAppend(a, b[..|b| - 1], x);
    }
  }

  lemma {:induction false} CountIsMultiplicity(s: seq<nat>, x: nat)
    ensures Count(s, x) == multiset(s)[x]
  {
    if s != [] {
      CountIsMultiplicity(s[..|s| - 1], x);
      assert s == s[..|s| - 1] + [s[|s| - 1]];
    }
  }

  lemma CountOfShuffle(a: seq<nat>, b: seq<nat>, x: nat)
    requires multiset(a) == multiset(b)
    ensures Count(a, x) == Count(b, x) && |a| == |b|
  {
    CountIsMultiplicity(a, x);
    CountIsMultiplicity(b, x);
    assert |multiset(a)| == |a| && |multiset(b)| == |b|;
  }

  // ---------------------------------------------------------------- the schedule

  function Repeat(n: nat, x: nat): (s: seq<nat>)
    ensures |s| == n
  {
    if n == 0 then [] else Repeat(n - 1, x) + [x]
  }

  /** Every label the same number of times, in blocks. */
  function Blocks(labels: nat, each: nat): seq<nat> {
    if labels == 0 then [] else Blocks(labels - 1, each) + Repeat(each, labels - 1)
  }

  lemma {:induction false} CountRepeat(n: nat, x: nat, y: nat)
    ensures Count(Repeat(n, x), y) == if x == y then n else 0
  {
    if n > 0 { CountRepeat(n - 1, x, y); }
  }

  lemma {:induction false} BlocksLength(labels: nat, each: nat)
    ensures |Blocks(labels, each)| == labels * each
  {
    if labels > 0 {
      BlocksLength(labels - 1, each);
      RowFits(labels - 1, labels, each);
    }
  }

  lemma {:induction false} BlocksBalanced(labels: nat, each: nat, tag: nat)
    ensures Count(Blocks(labels, each), tag) == if tag < labels then each else 0
  {
    hide Count, Repeat, Blocks;
    if labels == 0 {
      NoBlocks(each, tag);
    } else {
      BlocksGrow(labels, each);
      CountAppend(Blocks(labels - 1, each), Repeat(each, labels - 1), tag);
      BlocksBalanced(labels - 1, each, tag);
      CountRepeat(each, labels - 1, tag);
    }
  }

  lemma NoBlocks(each: nat, tag: nat)
    ensures Count(Blocks(0, each), tag) == 0
  {
  }

  lemma BlocksGrow(labels: nat, each: nat)
    requires labels > 0
    ensures Blocks(labels, each) == Blocks(labels - 1, each) + Repeat(each, labels - 1)
  {
  }

  /** A shuffle by swaps from the back; the draws decide which permutation results. */
  method Shuffle<T>(a: array<T>, draws: nat -> nat)
    modifies a
    ensures multiset(a[..]) == multiset(old(a[..]))
  {
    if a.Length == 0 { return; }
    for i := a.Length downto 1
      invariant multiset(a[..]) == multiset(old(a[..]))
    {
      var j := draws(i) % (i + 1);
      a[i], a[j] := a[j], a[i];
    }
  }

  /** The two halves of a schedule: calibration examples have even positions, evaluation examples odd ones. */
  function Evens(s: seq<nat>): (r: seq<nat>)
    ensures |r| == |s| / 2
  {
    seq(|s| / 2, i requires 0 <= i < |s| / 2 => s[2 * i])
  }

  function Odds(s: seq<nat>): (r: seq<nat>)
    ensures |r| == |s| / 2
  {
    seq(|s| / 2, i requires 0 <= i < |s| / 2 => s[2 * i + 1])
  }

  function Interleaved(a: seq<nat>, b: seq<nat>): (s: seq<nat>)
    requires |a| == |b|
    ensures |s| == 2 * |a|
  {
    if a == [] then [] else Interleaved(a[..|a| - 1], b[..|b| - 1]) + [a[|a| - 1], b[|b| - 1]]
  }

  lemma {:induction false} InterleavedAt(a: seq<nat>, b: seq<nat>, i: nat)
    requires |a| == |b| && i < |a|
    ensures Interleaved(a, b)[2 * i] == a[i] && Interleaved(a, b)[2 * i + 1] == b[i]
  {
    if i < |a| - 1 { InterleavedAt(a[..|a| - 1], b[..|b| - 1], i); }
  }

  lemma HalvesOfInterleaved(a: seq<nat>, b: seq<nat>)
    requires |a| == |b|
    ensures Evens(Interleaved(a, b)) == a && Odds(Interleaved(a, b)) == b
  {
    hide Interleaved;
    forall i | 0 <= i < |a| ensures Evens(Interleaved(a, b))[i] == a[i] && Odds(Interleaved(a, b))[i] == b[i] {
      InterleavedAt(a, b, i);
    }
  }

  lemma {:induction false} CountInterleaved(a: seq<nat>, b: seq<nat>, x: nat)
    requires |a| == |b|
    ensures Count(Interleaved(a, b), x) == Count(a, x) + Count(b, x)
  {
    if a != [] {
      var front, last := Interleaved(a[..|a| - 1], b[..|b| - 1]), [a[|a| - 1], b[|b| - 1]];
      CountInterleaved(a[..|a| - 1], b[..|b| - 1], x);
      CountAppend(front, last, x);
      assert last[..1] == [a[|a| - 1]] && last[..1][..0] == [];
    }
  }

  /** Every label `each` times at even and at odd positions, and no other label anywhere. */
  ghost predicate Balanced(schedule: seq<nat>, labels: nat, each: nat) {
    && (forall i :: 0 <= i < |schedule| ==> schedule[i] < labels)
    && (forall tag :: 0 <= tag < labels ==>
         && Count(Evens(schedule), tag) == each && Count(Odds(schedule), tag) == each
         && Count(schedule, tag) == 2 * each)
  }

  datatype DatasetError = Indivisible | Missing(short: map<nat, nat>)

  /** The schedule, whatever the two shuffles do. */
  method BalancedSchedule(count: nat, labels: nat, evenDraws: nat -> nat, oddDraws: nat -> nat)
    returns (result: Result<seq<nat>, DatasetError>)
    requires labels > 0
    ensures result.Ok? <==> count % (2 * labels) == 0
    ensures result.Ok? ==> |result.value| == count && Balanced(result.value, labels, count / (2 * labels))
    ensures result.Err? ==> result.error == Indivisible
  {
    if count % (2 * labels) != 0 { return Err(Indivisible); }
    var perSplit := count / 2;
    var oneSplit := MakeBlocks(labels, perSplit / labels);
    hide Balanced, Shuffles, Interleaved, Blocks;
    var even := ShuffledCopy(oneSplit, evenDraws);
    var odd := ShuffledCopy(oneSplit, oddDraws);
    var schedule := Interleave(even, odd);
    ShuffledBalance(count, labels, even, odd);
    result := Ok(schedule);
  }

  /** A split is shuffled in an array of its own. */
  method ShuffledCopy(split: seq<nat>, draws: nat -> nat) returns (shuffled: seq<nat>)
    ensures Shuffles(shuffled, split) && |shuffled| == |split|
  {
    var a := new nat[|split|];
    forall i | 0 <= i < |split| { a[i] := split[i]; }
    assert a[..] == split;
    Shuffle(a, draws);
    shuffled := a[..];
    assert |multiset(shuffled)| == |multiset(split)|;
  }

  method MakeBlocks(labels: nat, each: nat) returns (s: seq<nat>)
    ensures s == Blocks(labels, each)
  {
    s := [];
    for tag := 0 to labels
      invariant s == Blocks(tag, each)
    {
      ghost var before := s;
      for copy := 0 to each
        invariant s == before + Repeat(copy, tag)
      {
        s := s + [tag];
      }
    }
  }

  method Interleave(a: seq<nat>, b: seq<nat>) returns (s: seq<nat>)
    requires |a| == |b|
    ensures s == Interleaved(a, b)
  {
    s := [];
    for i := 0 to |a|
      invariant s == Interleaved(a[..i], b[..i])
    {
      assert a[..i + 1][..i] == a[..i] && b[..i + 1][..i] == b[..i];
      s := s + [a[i], b[i]];
    }
    assert a[..|a|] == a && b[..|b|] == b;
  }

  lemma Shares(count: nat, labels: nat)
    requires labels > 0 && count % (2 * labels) == 0
    ensures count / 2 / labels == count / (2 * labels) && labels * (count / (2 * labels)) * 2 == count
    ensures count / labels == 2 * (count / (2 * labels))
  {
    var each := count / (2 * labels);
    assert count == each * (2 * labels);
    assert count == 2 * each * labels
        && count / 2 == each * labels by { assert each * (2 * labels) == 2 * each * labels; }
    Euclid(each, labels, 0);
    Euclid(2 * each, labels, 0);
  }

  lemma ShuffledCounts(blocks: seq<nat>, even: seq<nat>, odd: seq<nat>, tag: nat)
    requires multiset(even) == multiset(odd) == multiset(blocks)
    ensures |even| == |odd| == |blocks|
    ensures Count(even, tag) == Count(odd, tag) == Count(blocks, tag)
    ensures Count(Interleaved(even, odd), tag) == 2 * Count(blocks, tag)
  {
    CountOfShuffle(even, blocks, tag);
    CountOfShuffle(odd, blocks, tag);
    CountInterleaved(even, odd, tag);
  }

  lemma ShuffledBalance(count: nat, labels: nat, even: seq<nat>, odd: seq<nat>)
    requires labels > 0 && count % (2 * labels) == 0
    requires multiset(even) == multiset(odd) == multiset(Blocks(labels, count / 2 / labels))
    ensures |even| == |odd| && 2 * |even| == count && Balanced(Interleaved(even, odd), labels, count / (2 * labels))
  {
    var each := count / (2 * labels);
    Shares(count, labels);
    BlocksLength(labels, each);
    ShuffledCounts(Blocks(labels, each), even, odd, 0);
    BalanceFrom(labels, each, even, odd);
  }

  ghost predicate Shuffles(a: seq<nat>, b: seq<nat>) { multiset(a) == multiset(b) }

  lemma LabelBalance(labels: nat, each: nat, even: seq<nat>, odd: seq<nat>, tag: nat)
    requires Shuffles(even, Blocks(labels, each)) && Shuffles(odd, Blocks(labels, each)) && |even| == |odd|
    ensures
      var schedule := Interleaved(even, odd);
      var share := if tag < labels then each else 0;
      Count(Evens(schedule), tag) == share && Count(Odds(schedule), tag) == share && Count(schedule, tag) == 2 * share
  {
    ShuffledCounts(Blocks(labels, each), even, odd, tag);
    BlocksBalanced(labels, each, tag);
    HalvesOfInterleaved(even, odd);
  }

  lemma BalanceFrom(labels: nat, each: nat, even: seq<nat>, odd: seq<nat>)
    requires Shuffles(even, Blocks(labels, each)) && Shuffles(odd, Blocks(labels, each)) && |even| == |odd|
    ensures Balanced(Interleaved(even, odd), labels, each)
  {
    hide Count, Interleaved, Blocks, Evens, Odds, Shuffles;
    var schedule := Interleaved(even, odd);
    forall tag | 0 <= tag < labels
      ensures Count(Evens(schedule), tag) == each && Count(Odds(schedule), tag) == each
          && Count(schedule, tag) == 2 * each
    {
      LabelBalance(labels, each, even, odd, tag);
    }
    forall i | 0 <= i < |schedule| ensures schedule[i] < labels {
      CountPositive(schedule, i);
      LabelBalance(labels, each, even, odd, schedule[i]);
    }
  }

  lemma {:induction false} CountPositive(s: seq<nat>, i: nat)
    requires i < |s|
    ensures Count(s, s[i]) > 0
  {
    if i < |s| - 1 { CountPositive(s[..|s| - 1], i); }
  }

  // ---------------------------------------------------------------- fetching rows

  datatype Row = Row(tag: Option<int>, text: Option<string>)

  /** One entry of a page; either part may be missing or of the wrong type. */
  datatype Item = Item(rowIndex: Option<int>, row: Option<Row>)

  datatype Picked = Picked(row: int, text: string)

  /** What the row server answers at an offset; an empty page also stands for a malformed one. */
  type Pages = nat -> seq<Item>

  const PAGE_LIMIT: nat := 2000

  /** An entry worth looking at: it has an index and a row. */
  predicate Complete(item: Item) { item.rowIndex.Some? && item.row.Some? }

  /** The row indices seen in a list of entries. */
  function Seen(items: seq<Item>): set<int> {
    if items == [] then {}
    else
      var last := items[|items| - 1];
      Seen(items[..|items| - 1]) + (if Complete(last) then {last.rowIndex.value} else {})
  }

  /** The entry offers a row for this label, with a text that is not blank. */
  predicate Offers(item: Item, tag: nat, blank: string -> bool) {
    && Complete(item) && item.row.value.tag == Some(tag)
    && item.row.value.text.Some? && !blank(item.row.value.text.value)
  }

  /** The usable rows of a label, in the order they are met: of entries with the same index only the first one
      counts. */
  function Usable(items: seq<Item>, tag: nat, blank: string -> bool): seq<Picked> {
    if items == [] then []
    else
      var front, last := items[..|items| - 1], items[|items| - 1];
      Usable(front, tag, blank) +
      (if Offers(last, tag, blank) && last.rowIndex.value !in Seen(front)
       then [Picked(last.rowIndex.value, last.row.value.text.value)] else [])
  }

  function Capped(rows: seq<Picked>, perLabel: nat): seq<Picked> {
    if |rows| <= perLabel then rows else rows[..perLabel]
  }

  /** The selection holds, for every label, the first usable rows among the entries read, up to its share. */
  ghost predicate Selected(selected: seq<seq<Picked>>, read: seq<Item>, labels: nat, perLabel: nat,
      blank: string -> bool)
  {
    |selected| == labels &&
    forall tag :: 0 <= tag < labels ==> selected[tag] == Capped(Usable(read, tag, blank), perLabel)
  }

  predicate Short(selected: seq<seq<Picked>>, perLabel: nat) {
    exists a :: 0 <= a < |selected| && |selected[a]| < perLabel
  }

  /** Looks at one entry of a page. */
  method TakeItem(
      item: Item, ghost read: seq<Item>, before: seq<seq<Picked>>, seen: set<int>, labels: nat, perLabel: nat,
      blank: string -> bool)
    returns (selected: seq<seq<Picked>>, visited: set<int>)
    requires Selected(before, read, labels, perLabel, blank) && seen == Seen(read)
    ensures Selected(selected, read + [item], labels, perLabel, blank) && visited == Seen(read + [item])
  {
    selected, visited := before, seen;
    SeenOneMore(read, item);
    TakeKeeps(before, read, labels, perLabel, blank, item);
    if item.rowIndex.None? || item.rowIndex.value in visited || item.row.None? { return; }
    var index := item.rowIndex.value;
    visited := visited + {index};
    var tag, text := item.row.value.tag, item.row.value.text;
    if tag.Some? && 0 <= tag.value < labels && |selected[tag.value]| < perLabel && text.Some? && !blank(text.value) {
      selected := selected[tag.value := selected[tag.value] + [Picked(index, text.value)]];
    }
  }

  lemma SeenOneMore(read: seq<Item>, item: Item)
    ensures Seen(read + [item]) == Seen(read) + (if Complete(item) then {item.rowIndex.value} else {})
  {
    assert (read + [item])[..|read|] == read;
  }

  lemma UsableOneMore(read: seq<Item>, item: Item, tag: nat, blank: string -> bool)
    ensures
      Usable(read + [item], tag, blank) ==
      Usable(read, tag, blank) +
      (if Offers(item, tag, blank) && item.rowIndex.value !in Seen(read)
       then [Picked(item.rowIndex.value, item.row.value.text.value)] else [])
  {
    assert (read + [item])[..|read|] == read;
  }

  lemma CappedOneMore(rows: seq<Picked>, more: Picked, perLabel: nat)
    ensures Capped(rows + [more], perLabel)
            == if |Capped(rows, perLabel)| < perLabel then Capped(rows, perLabel) + [more] else Capped(rows, perLabel)
  {
  }

  /** The selection after one more entry, label by label. */
  lemma TakeKeeps(
      before: seq<seq<Picked>>, read: seq<Item>, labels: nat, perLabel: nat, blank: string -> bool, item: Item)
    requires Selected(before, read, labels, perLabel, blank)
    ensures
      var unseen := Complete(item) && item.rowIndex.value !in Seen(read);
      if unseen && item.row.value.tag.Some? && 0 <= item.row.value.tag.value < labels
         && |before[item.row.value.tag.value]| < perLabel && Offers(item, item.row.value.tag.value, blank)
      then
        var tag := item.row.value.tag.value;
        var picked := Picked(item.rowIndex.value, item.row.value.text.value);
        Selected(before[tag := before[tag] + [picked]], read + [item], labels, perLabel, blank)
      else Selected(before, read + [item], labels, perLabel, blank)
  {
    hide Usable, Seen, Capped;
    forall tag: nat | tag < labels
      ensures
        var more := Capped(Usable(read + [item], tag, blank), perLabel);
        if Offers(item, tag, blank) && item.rowIndex.value !in Seen(read) && |before[tag]| < perLabel
        then more == before[tag] + [Picked(item.rowIndex.value, item.row.value.text.value)]
        else more == before[tag]
    {
      UsableOneMore(read, item, tag, blank);
      if Offers(item, tag, blank) && item.rowIndex.value !in Seen(read) {
        CappedOneMore(Usable(read, tag, blank), Picked(item.rowIndex.value, item.row.value.text.value), perLabel);
      } else {
        assert Usable(read, tag, blank) + [] == Usable(read, tag, blank);
      }
    }
  }

  /** The entries of the page at an offset and all pages after it, until an empty page or two thousand rows from the
      start. */
  function EntriesFrom(pages: Pages, start: nat, offset: nat): seq<Item>
    requires start <= offset
    decreases PAGE_LIMIT - (offset - start)
  {
    if offset - start >= PAGE_LIMIT || pages(offset) == [] then []
    else pages(offset) + EntriesFrom(pages, start, offset + |pages(offset)|)
  }

  /** Every entry that can be reached from the starting offsets. */
  function AllEntries(pages: Pages, offsets: seq<nat>): seq<Item> {
    if offsets == [] then []
    else
      var last := offsets[|offsets| - 1];
      AllEntries(pages, offsets[..|offsets| - 1]) + EntriesFrom(pages, last, last)
  }

  /** Pages cut from one list of rows: the page at an offset has the next hundred rows, or all that are left. */
  ghost predicate CutFrom(pages: Pages, rows: seq<Item>) {
    forall offset: nat :: pages(offset) == CutAt(rows, offset)
  }

  function CutAt(rows: seq<Item>, offset: nat): seq<Item> {
    if offset >= |rows| then []
    else if offset + 100 >= |rows| then rows[offset..]
    else rows[offset..offset + 100]
  }

  /** From any starting offset exactly the first two thousand rows are reached, or all that there are. */
  lemma {:induction false} ReachesTwoThousand(pages: Pages, rows: seq<Item>, start: nat, pagesRead: nat)
    requires CutFrom(pages, rows) && pagesRead <= 20
    ensures
      EntriesFrom(pages, start, start + 100 * pagesRead) ==
        if start + 100 * pagesRead >= |rows| then []
        else rows[start + 100 * pagesRead..if start + 2000 <= |rows| then start + 2000 else |rows|]
    decreases 20 - pagesRead
  {
    var offset := start + 100 * pagesRead;
    assert pages(offset) == CutAt(rows, offset);
    if offset < |rows| && pagesRead < 20 {
      var end := if start + 2000 <= |rows| then start + 2000 else |rows|;
      if offset + 100 >= |rows| {
        assert pages(|rows|) == CutAt(rows, |rows|);
        assert EntriesFrom(pages, start, |rows|) == [];
        assert pages(offset) + [] == rows[offset..end];
      } else {
        ReachesTwoThousand(pages, rows, start, pagesRead + 1);
        assert rows[offset..offset + 100] + rows[offset + 100..end] == rows[offset..end];
      }
    }
  }

  lemma {:induction false} UsableOfPrefix(a: seq<Item>, b: seq<Item>, tag: nat, blank: string -> bool)
    ensures Usable(a, tag, blank) <= Usable(a + b, tag, blank)
  {
    if b == [] {
      assert a + b == a;
    } else {
      UsableOfPrefix(a, b[..|b| - 1], tag, blank);
      assert a + b == (a + b[..|b| - 1]) + [b[|b| - 1]];
      UsableOneMore(a + b[..|b| - 1], b[|b| - 1], tag, blank);
    }
  }

  /** Once no label is short, reading on changes nothing. */
  lemma EnoughRead(
      selected: seq<seq<Picked>>, read: seq<Item>, rest: seq<Item>, labels: nat, perLabel: nat, blank: string -> bool)
    requires Selected(selected, read, labels, perLabel, blank) && !Short(selected, perLabel)
    ensures Selected(selected, read + rest, labels, perLabel, blank)
  {
    forall tag | 0 <= tag < labels ensures selected[tag] == Capped(Usable(read + rest, tag, blank), perLabel) {
      UsableOfPrefix(read, rest, tag, blank);
      assert |selected[tag]| >= perLabel;
    }
  }

  /** The labels that fall short of their share, each with how many rows it lacks. */
  ghost predicate Lacks(short: map<nat, nat>, all: seq<Item>, labels: nat, perLabel: nat, blank: string -> bool) {
    && (forall tag: nat :: tag in short <==> tag < labels && |Usable(all, tag, blank)| < perLabel)
    && (forall tag: nat :: tag in short ==> short[tag] == perLabel - |Usable(all, tag, blank)|)
  }

  lemma NothingRead(selected: seq<seq<Picked>>, labels: nat, perLabel: nat, blank: string -> bool)
    requires |selected| == labels && forall tag :: 0 <= tag < labels ==> selected[tag] == []
    ensures Selected(selected, [], labels, perLabel, blank) && Seen([]) == {}
  {
  }

  lemma {:induction false} AllEntriesPrefix(pages: Pages, offsets: seq<nat>, n: nat)
    requires n <= |offsets|
    ensures AllEntries(pages, offsets[..n]) <= AllEntries(pages, offsets)
    decreases |offsets|
  {
    hide EntriesFrom;
    if n == |offsets| {
      assert offsets[..n] == offsets;
    } else {
      var front := offsets[..|offsets| - 1];
      AllEntriesPrefix(pages, front, n);
      assert front[..n] == offsets[..n];
    }
  }

  lemma AllEntriesNext(pages: Pages, offsets: seq<nat>, n: nat)
    requires n < |offsets|
    ensures AllEntries(pages, offsets[..n + 1])
        == AllEntries(pages, offsets[..n]) + EntriesFrom(pages, offsets[n], offsets[n])
  {
    assert offsets[..n + 1][..n] == offsets[..n];
  }

  lemma ShortLabels(
      selected: seq<seq<Picked>>, all: seq<Item>, labels: nat, perLabel: nat, blank: string -> bool,
      missing: map<nat, nat>)
    requires Selected(selected, all, labels, perLabel, blank)
    requires forall tag: nat :: tag in missing <==> tag < labels && |selected[tag]| < perLabel
    requires forall tag: nat :: tag in missing ==> missing[tag] == perLabel - |selected[tag]|
    ensures Lacks(missing, all, labels, perLabel, blank)
    ensures missing == map[] <==> forall tag: nat :: tag < labels ==> |Usable(all, tag, blank)| >= perLabel
    ensures forall tag :: 0 <= tag < labels && tag !in missing ==>
              |selected[tag]| == perLabel && selected[tag] <= Usable(all, tag, blank)
  {
    hide Usable;
    forall tag: nat | tag < labels
      ensures |selected[tag]| < perLabel <==> |Usable(all, tag, blank)| < perLabel
      ensures |selected[tag]| < perLabel ==> |selected[tag]| == |Usable(all, tag, blank)|
    {
      assert selected[tag] == Capped(Usable(all, tag, blank), perLabel);
    }
    if missing == map[] {
      forall tag: nat | tag < labels ensures |Usable(all, tag, blank)| >= perLabel { assert tag !in missing; }
    } else {
      var tag :| tag in missing;
      assert tag < labels && |Usable(all, tag, blank)| < perLabel;
    }
  }

  /** Reads page after page from one starting offset, at most about two thousand rows, and stops early only when no
      label is short any more; `rest` is what it then leaves unread. */
  method ReadFrom(
      pages: Pages, start: nat, ghost before: seq<Item>, chosen: seq<seq<Picked>>, seen: set<int>, labels: nat,
      perLabel: nat, blank: string -> bool)
    returns (selected: seq<seq<Picked>>, visited: set<int>, ghost read: seq<Item>, ghost rest: seq<Item>)
    requires Selected(chosen, before, labels, perLabel, blank) && seen == Seen(before)
    ensures Selected(selected, read, labels, perLabel, blank) && visited == Seen(read)
    ensures read + rest == before + EntriesFrom(pages, start, start)
    ensures Short(selected, perLabel) ==> rest == []
  {
    hide Selected, Seen, Short;
    selected, visited, read := chosen, seen, before;
    var offset := start;
    while Short(selected, perLabel) && offset - start < PAGE_LIMIT
      invariant start <= offset && Selected(selected, read, labels, perLabel, blank) && visited == Seen(read)
      invariant read + EntriesFrom(pages, start, offset) == before + EntriesFrom(pages, start, start)
      decreases PAGE_LIMIT - (offset - start)
    {
      var rows := pages(offset);
      if rows == [] { break; }
      ghost var page, after := read, EntriesFrom(pages, start, offset + |rows|);
      assert EntriesFrom(pages, start, offset) == rows + after;
      for k := 0 to |rows|
        invariant Selected(selected, read, labels, perLabel, blank) && visited == Seen(read) && read == page + rows[..k]
      {
        selected, visited := TakeItem(rows[k], read, selected, visited, labels, perLabel, blank);
        read := read + [rows[k]];
        assert page + rows[..k] + [rows[k]] == page + rows[..k + 1];
      }
      assert rows[..|rows|] == rows && page + rows + after == page + (rows + after);
      offset := offset + |rows|;
    }
    rest := EntriesFrom(pages, start, offset);
  }

  /** Pages through the source from each starting offset until every label has its share. It succeeds exactly when
      every label has enough usable rows among all reachable entries, and then selects the first ones of each;
      otherwise it reports exactly the labels that are short, each with exactly what it lacks. */
  method BalancedRows(pages: Pages, offsets: seq<nat>, labels: nat, perLabel: nat, blank: string -> bool)
    returns (result: Result<seq<seq<Picked>>, DatasetError>)
    ensures
      var all := AllEntries(pages, offsets);
      && (result.Ok? <==> forall tag: nat :: tag < labels ==> |Usable(all, tag, blank)| >= perLabel)
      && (result.Ok? ==> |result.value| == labels && forall tag :: 0 <= tag < labels ==>
           |result.value[tag]| == perLabel && result.value[tag] <= Usable(all, tag, blank))
      && (result.Err? ==> result.error.Missing? && Lacks(result.error.short, all, labels, perLabel, blank))
  {
    hide Usable, Seen, EntriesFrom;
    var selected: seq<seq<Picked>> := seq(labels, _ => []);
    var visited: set<int> := {};
    ghost var read: seq<Item> := [];
    NothingRead(selected, labels, perLabel, blank);
    var n := 0;
    var done := false;
    while n < |offsets| && !done
      invariant n <= |offsets| && visited == Seen(read)
      invariant if done then Selected(selected, AllEntries(pages, offsets), labels, perLabel, blank)
                else read == AllEntries(pages, offsets[..n]) && Selected(selected, read, labels, perLabel, blank)
      decreases |offsets| - n, !done
    {
      ghost var rest;
      selected, visited, read, rest := ReadFrom(pages, offsets[n], read, selected, visited, labels, perLabel, blank);
      AllEntriesNext(pages, offsets, n);
      AllEntriesPrefix(pages, offsets, n + 1);
      ghost var all := AllEntries(pages, offsets);
      assert read + rest <= all;
      if !Short(selected, perLabel) {
        assert read + all[|read|..] == all;
        EnoughRead(selected, read, all[|read|..], labels, perLabel, blank);
        done := true;
      } else {
        n := n + 1;
      }
    }
    assert offsets[..|offsets|] == offsets;
    var missing := map a: nat | a < labels && |selected[a]| < perLabel :: perLabel - |selected[a]|;
    ShortLabels(selected, AllEntries(pages, offsets), labels, perLabel, blank, missing);
    if missing != map[] { return Err(Missing(missing)); }
    result := Ok(selected);
  }

  // What was selected: rows that are all different, each from a page and with its own label.

  /** The entry that supplies this row, under this label. */
  predicate Supplies(item: Item, tag: nat, picked: Picked) {
    item == Item(Some(picked.row), Some(Row(Some(tag), Some(picked.text))))
  }

  ghost predicate SuppliedBy(pages: Pages, tag: nat, picked: Picked) {
    exists offset: nat, k: nat :: k < |pages(offset)| && Supplies(pages(offset)[k], tag, picked)
  }

  lemma {:induction false} UsableSupplied(items: seq<Item>, tag: nat, blank: string -> bool, i: nat)
    requires i < |Usable(items, tag, blank)|
    ensures
      var picked := Usable(items, tag, blank)[i];
      !blank(picked.text) && picked.row in Seen(items) && exists item :: item in items && Supplies(item, tag, picked)
  {
    var front, last := items[..|items| - 1], items[|items| - 1];
    if i < |Usable(front, tag, blank)| {
      UsableSupplied(front, tag, blank, i);
    } else {
      assert Supplies(last, tag, Usable(items, tag, blank)[i]);
    }
  }

  lemma {:induction false} UsableDiffer(items: seq<Item>, a: nat, i: nat, b: nat, j: nat, blank: string -> bool)
    requires i < |Usable(items, a, blank)| && j < |Usable(items, b, blank)|
    requires Usable(items, a, blank)[i].row == Usable(items, b, blank)[j].row
    ensures a == b && i == j
  {
    var front := items[..|items| - 1];
    if i < |Usable(front, a, blank)| { UsableSupplied(front, a, blank, i); }
    if j < |Usable(front, b, blank)| { UsableSupplied(front, b, blank, j); }
    hide Seen;
    if i < |Usable(front, a, blank)| && j < |Usable(front, b, blank)| { UsableDiffer(front, a, i, b, j, blank); }
  }

  lemma {:induction false} EntriesOnPages(pages: Pages, start: nat, offset: nat, item: Item)
    requires start <= offset && item in EntriesFrom(pages, start, offset)
    ensures exists o: nat, k: nat :: k < |pages(o)| && pages(o)[k] == item
    decreases PAGE_LIMIT - (offset - start)
  {
    if item in pages(offset) {
      var k :| 0 <= k < |pages(offset)| && pages(offset)[k] == item;
    } else {
      EntriesOnPages(pages, start, offset + |pages(offset)|, item);
    }
  }

  lemma {:induction false} AllEntriesOnPages(pages: Pages, offsets: seq<nat>, item: Item)
    requires item in AllEntries(pages, offsets)
    ensures exists o: nat, k: nat :: k < |pages(o)| && pages(o)[k] == item
  {
    var front, last := offsets[..|offsets| - 1], offsets[|offsets| - 1];
    if item in AllEntries(pages, front) {
      AllEntriesOnPages(pages, front, item);
    } else {
      EntriesOnPages(pages, last, last, item);
    }
  }

  lemma UsableOnPages(pages: Pages, offsets: seq<nat>, tag: nat, blank: string -> bool, i: nat)
    requires i < |Usable(AllEntries(pages, offsets), tag, blank)|
    ensures
      var picked := Usable(AllEntries(pages, offsets), tag, blank)[i];
      !blank(picked.text) && SuppliedBy(pages, tag, picked)
  {
    var all := AllEntries(pages, offsets);
    UsableSupplied(all, tag, blank, i);
    hide Usable, AllEntries;
    var item :| item in all && Supplies(item, tag, Usable(all, tag, blank)[i]);
    AllEntriesOnPages(pages, offsets, item);
  }

  /** No row is picked twice, under the same label or another. */
  ghost predicate DistinctRows(selected: seq<seq<Picked>>) {
    forall a, i, b, j ::
      0 <= a < |selected| && 0 <= i < |selected[a]| && 0 <= b < |selected| && 0 <= j < |selected[b]| ==>
      selected[a][i].row == selected[b][j].row ==> a == b && i == j
  }

  /** Rows taken from the usable ones, label by label, are all different and come from their own label's pages. */
  lemma SelectionIsGood(selected: seq<seq<Picked>>, pages: Pages, offsets: seq<nat>, blank: string -> bool)
    requires forall tag :: 0 <= tag < |selected| ==> selected[tag] <= Usable(AllEntries(pages, offsets), tag, blank)
    ensures DistinctRows(selected)
    ensures forall tag, i :: 0 <= tag < |selected| && 0 <= i < |selected[tag]| ==>
              !blank(selected[tag][i].text) && SuppliedBy(pages, tag, selected[tag][i])
  {
    var all := AllEntries(pages, offsets);
    hide Usable, AllEntries, SuppliedBy;
    forall a, i, b, j | 0 <= a < |selected| && 0 <= i < |selected[a]| && 0 <= b < |selected| && 0 <= j < |selected[b]|
      && selected[a][i].row == selected[b][j].row
      ensures a == b && i == j
    {
      UsableDiffer(all, a, i, b, j, blank);
    }
    forall tag, i | 0 <= tag < |selected| && 0 <= i < |selected[tag]|
      ensures !blank(selected[tag][i].text) && SuppliedBy(pages, tag, selected[tag][i])
    {
      UsableOnPages(pages, offsets, tag, blank, i);
    }
  }

  // ---------------------------------------------------------------- one row per example

  lemma {:induction false} CountPrefix(s: seq<nat>, i: nat, j: nat, x: nat)
    requires i <= j <= |s|
    ensures Count(s[..i], x) <= Count(s[..j], x)
  {
    if i < j {
      assert s[..j][..j - 1] == s[..j - 1];
      CountPrefix(s, i, j - 1, x);
    }
  }

  /** The label of an example has been used fewer times before it than in all. */
  lemma CountBefore(s: seq<nat>, i: nat, j: nat)
    requires i < j <= |s|
    ensures Count(s[..i], s[i]) < Count(s[..j], s[i])
  {
    assert s[..i + 1][..i] == s[..i];
    CountPrefix(s, i + 1, j, s[i]);
  }

  /** The rows chosen for the examples of one label, in order. */
  function ChosenFor(schedule: seq<nat>, chosen: seq<Picked>, tag: nat): seq<Picked>
    requires |schedule| == |chosen|
  {
    if schedule == [] then []
    else
      var n := |schedule| - 1;
      ChosenFor(schedule[..n], chosen[..n], tag) + (if schedule[n] == tag then [chosen[n]] else [])
  }

  /** The i-th example takes the next unused row of its label. */
  ghost predicate TakesNext(schedule: seq<nat>, rows: seq<seq<Picked>>, chosen: seq<Picked>) {
    |chosen| <= |schedule| &&
    forall i :: 0 <= i < |chosen| ==>
      && schedule[i] < |rows| && Count(schedule[..i], schedule[i]) < |rows[schedule[i]]|
      && chosen[i] == rows[schedule[i]][Count(schedule[..i], schedule[i])]
  }

  lemma {:induction false} ChosenInOrder(schedule: seq<nat>, rows: seq<seq<Picked>>, chosen: seq<Picked>, n: nat,
      tag: nat)
    requires TakesNext(schedule, rows, chosen) && n <= |chosen| && tag < |rows|
    ensures Count(schedule[..n], tag) <= |rows[tag]|
    ensures ChosenFor(schedule[..n], chosen[..n], tag) == rows[tag][..Count(schedule[..n], tag)]
  {
    hide Count, ChosenFor, TakesNext;
    if n == 0 {
      NothingChosen(schedule, chosen, tag);
    } else {
      TakesAt(schedule, rows, chosen, n - 1);
      CountOneMore(schedule, n - 1, tag);
      ChosenInOrder(schedule, rows, chosen, n - 1, tag);
      ChosenOneMore(schedule, chosen, n - 1, tag);
      if schedule[n - 1] == tag { TakeGrows(rows[tag], Count(schedule[..n - 1], tag)); }
    }
  }

  lemma NothingChosen(schedule: seq<nat>, chosen: seq<Picked>, tag: nat)
    ensures Count(schedule[..0], tag) == 0 && ChosenFor(schedule[..0], chosen[..0], tag) == []
  {
  }

  lemma ChosenOneMore(schedule: seq<nat>, chosen: seq<Picked>, i: nat, tag: nat)
    requires i < |schedule| && i < |chosen|
    ensures ChosenFor(schedule[..i + 1], chosen[..i + 1], tag)
            == ChosenFor(schedule[..i], chosen[..i], tag) + (if schedule[i] == tag then [chosen[i]] else [])
  {
    assert schedule[..i + 1][..i] == schedule[..i] && chosen[..i + 1][..i] == chosen[..i];
  }

  lemma TakesAt(schedule: seq<nat>, rows: seq<seq<Picked>>, chosen: seq<Picked>, i: nat)
    requires TakesNext(schedule, rows, chosen) && i < |chosen|
    ensures i < |schedule| && schedule[i] < |rows| && Count(schedule[..i], schedule[i]) < |rows[schedule[i]]|
    ensures chosen[i] == rows[schedule[i]][Count(schedule[..i], schedule[i])]
  {
    hide Count;
  }

  lemma TakeGrows<T>(s: seq<T>, n: nat)
    requires n < |s|
    ensures s[..n] + [s[n]] == s[..n + 1]
  {
  }

  lemma ChosenDiffer(schedule: seq<nat>, rows: seq<seq<Picked>>, chosen: seq<Picked>, i: nat, j: nat)
    requires TakesNext(schedule, rows, chosen) && DistinctRows(rows) && i < j < |chosen|
    ensures chosen[i].row != chosen[j].row
  {
    CountBefore(schedule, i, j);
  }

  lemma ChosenOfLabel(schedule: seq<nat>, rows: seq<seq<Picked>>, chosen: seq<Picked>)
    requires TakesNext(schedule, rows, chosen)
    ensures forall i :: 0 <= i < |chosen| ==> schedule[i] < |rows| && chosen[i] in rows[schedule[i]]
  {
    hide Count;
  }

  lemma NothingTaken(schedule: seq<nat>, rows: seq<seq<Picked>>)
    ensures TakesNext(schedule, rows, [])
    ensures forall tag :: Count(schedule[..0], tag) == 0
  {
  }

  lemma CountOneMore(s: seq<nat>, i: nat, x: nat)
    requires i < |s|
    ensures Count(s[..i + 1], x) == Count(s[..i], x) + if x == s[i] then 1 else 0
  {
    assert s[..i + 1][..i] == s[..i];
  }

  lemma TakesOneMore(schedule: seq<nat>, rows: seq<seq<Picked>>, chosen: seq<Picked>)
    requires TakesNext(schedule, rows, chosen) && |chosen| < |schedule|
    requires schedule[|chosen|] < |rows| && Count(schedule[..|chosen|], schedule[|chosen|]) < |rows[schedule[|chosen|]]|
    ensures
      var tag := schedule[|chosen|];
      TakesNext(schedule, rows, chosen + [rows[tag][Count(schedule[..|chosen|], tag)]])
  {
    hide Count;
  }

  /** Gives each example the next row of its label. With a balanced schedule no position leaves the rows that were
      fetched, every row is used exactly once, and no two examples share a row. */
  method TakeRows(schedule: seq<nat>, rows: seq<seq<Picked>>) returns (chosen: seq<Picked>)
    requires DistinctRows(rows) && forall i :: 0 <= i < |schedule| ==> schedule[i] < |rows|
    requires forall tag :: 0 <= tag < |rows| ==> Count(schedule, tag) == |rows[tag]|
    ensures |chosen| == |schedule|
    ensures forall tag :: 0 <= tag < |rows| ==> ChosenFor(schedule, chosen, tag) == rows[tag]
    ensures forall i :: 0 <= i < |chosen| ==> chosen[i] in rows[schedule[i]]
    ensures forall i, j :: 0 <= i < j < |chosen| ==> chosen[i].row != chosen[j].row
  {
    hide Count, ChosenFor, DistinctRows, TakesNext;
    chosen := [];
    var positions := seq(|rows|, _ => 0);
    NothingTaken(schedule, rows);
    for i := 0 to |schedule|
      invariant |chosen| == i && |positions| == |rows| && TakesNext(schedule, rows, chosen)
      invariant forall tag :: 0 <= tag < |rows| ==> positions[tag] == Count(schedule[..i], tag)
    {
      var tag := schedule[i];
      var position := positions[tag];
      CountBefore(schedule, i, |schedule|);
      assert schedule[..|schedule|] == schedule;
      TakesOneMore(schedule, rows, chosen);
      forall other
          ensures Count(schedule[..i + 1], other) == Count(schedule[..i], other) + (if other == tag then 1 else 0) {
        CountOneMore(schedule, i, other);
      }
      positions := positions[tag := position + 1];
      chosen := chosen + [rows[tag][position]];
    }
    assert schedule[..|schedule|] == schedule && chosen[..|chosen|] == chosen;
    forall tag | 0 <= tag < |rows| ensures ChosenFor(schedule, chosen, tag) == rows[tag] {
      ChosenInOrder(schedule, rows, chosen, |schedule|, tag);
    }
    forall i, j | 0 <= i < j < |chosen| ensures chosen[i].row != chosen[j].row {
      ChosenDiffer(schedule, rows, chosen, i, j);
    }
    ChosenOfLabel(schedule, rows, chosen);
  }

  /** One source of the dataset, from schedule to rows. It is built exactly when the count divides and every label has
      enough usable rows. Then example i gets a row of its own label with a text that is not blank, the examples of a
      label use its first usable rows in order, each once, and no two examples share a row. */
  method BuildSource(
      count: nat, labels: nat, evenDraws: nat -> nat, oddDraws: nat -> nat, pages: Pages, offsets: seq<nat>,
      blank: string -> bool)
    returns (result: Result<(seq<nat>, seq<Picked>), DatasetError>)
    requires labels > 0
    ensures
      result.Ok? <==>
        && count % (2 * labels) == 0
        && forall tag: nat :: tag < labels ==> |Usable(AllEntries(pages, offsets), tag, blank)| >= count / labels
    ensures count % (2 * labels) != 0 ==> result == Err(Indivisible)
    ensures result.Ok? ==>
      var (schedule, chosen) := result.value;
      && |schedule| == |chosen| == count && Balanced(schedule, labels, count / (2 * labels))
      && (forall tag :: 0 <= tag < labels ==>
           |ChosenFor(schedule, chosen, tag)| == count / labels
           && ChosenFor(schedule, chosen, tag) <= Usable(AllEntries(pages, offsets), tag, blank))
      && (forall i :: 0 <= i < count ==> SuppliedBy(pages, schedule[i], chosen[i]) && !blank(chosen[i].text))
      && (forall i, j :: 0 <= i < j < count ==> chosen[i].row != chosen[j].row)
  {
    hide Count, DistinctRows, SuppliedBy, ChosenFor, Usable, AllEntries;
    var scheduled := BalancedSchedule(count, labels, evenDraws, oddDraws);
    if scheduled.Err? { return Err(scheduled.error); }
    var schedule := scheduled.value;
    var fetched := BalancedRows(pages, offsets, labels, count / labels, blank);
    if fetched.Err? { return Err(fetched.error); }
    var rows := fetched.value;
    Shares(count, labels);
    LabelsCounted(schedule, labels, count / (2 * labels));
    SelectionIsGood(rows, pages, offsets, blank);
    var chosen := TakeRows(schedule, rows);
    forall i | 0 <= i < count ensures SuppliedBy(pages, schedule[i], chosen[i]) && !blank(chosen[i].text) {
      var k :| 0 <= k < |rows[schedule[i]]| && rows[schedule[i]][k] == chosen[i];
    }
    result := Ok((schedule, chosen));
  }

  lemma LabelsCounted(schedule: seq<nat>, labels: nat, each: nat)
    requires Balanced(schedule, labels, each)
    ensures forall i :: 0 <= i < |schedule| ==> schedule[i] < labels
    ensures forall tag :: 0 <= tag < labels ==> Count(schedule, tag) == 2 * each
  {
  }
}
