/**
 * The practice step shown before the race (PRACTICE MATCHER in script.js): every word appears as one
 * button in a Chinese column and one in an English column, both shuffled, and the player taps pairs.
 * A button is identified by its column and its word id: each column holds exactly one button per word,
 * so `firstPick.el === el` holds exactly when both column and id agree.
 */
module Practice {
  import opened Wrappers
  import opened Shuffling
  import opened Vocabulary

  /** The column of a button: Chinese on the left, English on the right. */
  datatype Side = Left | Right

  function Opposite(side: Side): Side {
    if side == Left then Right else Left
  }

  /** A pair button: the index of its word (the source's `String(idx)` id) and the text it shows. */
  datatype Item = Item(id: nat, text: string)

  /** The text a word shows in a column. */
  function Text(w: Word, side: Side): string {
    if side == Left then w.jp else w.romaji
  }

  /** `base.map(x => ({ id: x.id, text: … }))`: one item per word, in list order. */
  function Items(words: seq<Word>, side: Side): (r: seq<Item>)
    ensures |r| == |words|
  {
    seq(|words|, i requires 0 <= i < |words| => Item(i, Text(words[i], side)))
  }

  /** A column holds one button per word, each showing that word's text for the column. */
  ghost predicate IsColumn(col: seq<Item>, words: seq<Word>, side: Side) {
    && |col| == |words|
    && (forall k :: 0 <= k < |col| ==> col[k].id < |words| && col[k].text == Text(words[col[k].id], side))
    && (forall i :: 0 <= i < |words| ==> Item(i, Text(words[i], side)) in col)
    && (forall k, l :: 0 <= k < l < |col| ==> col[k].id != col[l].id)
  }

  /** Shuffling the items of a column still gives a column: every word once, with its own text. */
  lemma ShuffledColumn(words: seq<Word>, side: Side, draws: seq<nat>)
    requires ValidDraws(|words|, draws)
    ensures IsColumn(Shuffled(Items(words, side), draws), words, side)
  {
    var items := Items(words, side);
    var col := Shuffled(items, draws);
    assert Distinct(items) by {
      forall k, l | 0 <= k < l < |items| ensures items[k] != items[l] {
        assert items[k].id == k && items[l].id == l;
      }
    }
    ShuffledPermutes(items, draws);
    forall k | 0 <= k < |col|
      ensures col[k].id < |words| && col[k].text == Text(words[col[k].id], side)
    {
      assert col[k] in multiset(items);
      var j :| 0 <= j < |items| && items[j] == col[k];
    }
    forall i | 0 <= i < |words|
      ensures Item(i, Text(words[i], side)) in col
    {
      assert items[i] in multiset(col);
    }
    forall k, l | 0 <= k < l < |col|
      ensures col[k].id != col[l].id
    {
      assert col[k] != col[l];
    }
  }

  /** `buildPracticePairs`: both columns shuffled independently; `total` is the number of words. */
  method BuildPracticePairs(words: seq<Word>, leftDraws: seq<nat>, rightDraws: seq<nat>)
    returns (left: seq<Item>, right: seq<Item>, total: nat)
    requires ValidDraws(|words|, leftDraws) && ValidDraws(|words|, rightDraws)
    ensures left == Shuffled(Items(words, Left), leftDraws)
    ensures right == Shuffled(Items(words, Right), rightDraws)
    ensures total == |words|
    ensures IsColumn(left, words, Left) && IsColumn(right, words, Right)
  {
    left := Shuffle(Items(words, Left), leftDraws);
    right := Shuffle(Items(words, Right), rightDraws);
    total := |words|;
    ShuffledColumn(words, Left, leftDraws);
    ShuffledColumn(words, Right, rightDraws);
  }

  // ----- handlePick -----

  /** The button held as the first of a pair. */
  datatype Pick = Pick(side: Side, id: nat)

  /** `practiceMatched` and `firstPick`. */
  datatype Matching = Matching(matched: set<nat>, firstPick: Option<Pick>)

  /** `handlePick(side, id, el)`: ignore a matched word, toggle off the held button, hold the first button,
      switch the held button within a column, match a pair across columns, or drop a mismatched pair. */
  function AfterPick(m: Matching, side: Side, id: nat): Matching {
    if id in m.matched then m
    else if m.firstPick == Some(Pick(side, id)) then m.(firstPick := None)
    else if m.firstPick.None? then m.(firstPick := Some(Pick(side, id)))
    else if m.firstPick.value.side == side then m.(firstPick := Some(Pick(side, id)))
    else if m.firstPick.value.id == id then Matching(m.matched + {id}, None)
    else m.(firstPick := None)
  }

  /** The word ids 0 .. n - 1. */
  function RangeSet(n: nat): (r: set<nat>)
    ensures forall i: nat :: i in r <==> i < n
  {
    if n == 0 then {} else RangeSet(n - 1) + {n - 1}
  }

  /** Matched words are words of the list, and the held button is an unmatched word of the list. */
  ghost predicate MatchInv(m: Matching, total: nat) {
    && m.matched <= RangeSet(total)
    && (m.firstPick.Some? ==> m.firstPick.value.id < total && m.firstPick.value.id !in m.matched)
  }

  /**
   * What a tap does: the matched set only ever gains the tapped word, and gains it exactly when a button
   * of the same word is held in the other column; afterwards the held button is none or the tapped one,
   * unless the tap was on a matched word and nothing changed.
   */
  lemma PickRules(m: Matching, side: Side, id: nat)
    ensures var r := AfterPick(m, side, id);
      && m.matched <= r.matched
      && (r.matched != m.matched <==> id !in m.matched && m.firstPick == Some(Pick(Opposite(side), id)))
      && (r.matched != m.matched ==> r.matched == m.matched + {id} && r.firstPick == None)
      && (r.firstPick.None? || r.firstPick == Some(Pick(side, id)) || r == m)
  {
  }

  lemma PickInv(m: Matching, total: nat, side: Side, id: nat)
    requires MatchInv(m, total) && id < total
    ensures MatchInv(AfterPick(m, side, id), total)
  {
  }

  /** A tap on a word that is already matched changes nothing. */
  lemma IgnoreMatched(m: Matching, side: Side, id: nat)
    requires id in m.matched
    ensures AfterPick(m, side, id) == m
  {
  }

  /** A second tap in the column of the held button makes the tapped button the held one, matching nothing. */
  lemma SwitchInColumn(m: Matching, side: Side, a: nat, b: nat)
    requires m.firstPick == Some(Pick(side, a)) && a != b && b !in m.matched
    ensures AfterPick(m, side, b) == m.(firstPick := Some(Pick(side, b)))
  {
  }

  /** Tapping the held button again releases it, whichever way it came to be held. */
  lemma ToggleOff(m: Matching, side: Side, id: nat)
    requires m.firstPick == Some(Pick(side, id)) && id !in m.matched
    ensures AfterPick(m, side, id) == m.(firstPick := None)
  {
  }

  /** Tapping a button and then the same button again leaves everything as it was. */
  lemma TapTwiceRestores(m: Matching, side: Side, id: nat)
    requires m.firstPick.None?
    ensures AfterPick(AfterPick(m, side, id), side, id) == m
  {
  }

  /** Tapping a word in one column and the same word in the other matches it and clears the selection. */
  lemma MatchPair(m: Matching, side: Side, id: nat)
    requires m.firstPick.None? && id !in m.matched
    ensures AfterPick(AfterPick(m, side, id), Opposite(side), id) == Matching(m.matched + {id}, None)
  {
  }

  /** A tap on a different unmatched word in the column opposite the held button matches nothing and clears the selection. */
  lemma Mismatch(m: Matching, side: Side, a: nat, b: nat)
    requires m.firstPick == Some(Pick(Opposite(side), a)) && a != b && b !in m.matched
    ensures AfterPick(m, side, b) == m.(firstPick := None)
  {
  }

  /** Tapping two different words in different columns, from an empty selection, leaves everything as it was. */
  lemma MismatchRestores(m: Matching, side: Side, a: nat, b: nat)
    requires m.firstPick.None? && a != b && a !in m.matched && b !in m.matched
    ensures AfterPick(AfterPick(m, side, a), Opposite(side), b) == m
  {
  }

  /** A subset has at most as many elements as its superset. */
  lemma {:induction false} SubsetCard(a: set<nat>, b: set<nat>)
    requires a <= b
    ensures |a| <= |b|
    ensures |a| == |b| ==> a == b
    decreases |b|
  {
    if b != {} {
      var x :| x in b;
      SubsetCard(a - {x}, b - {x});
      if x in a {
        assert |a - {x}| == |a| - 1;
        assert a == (a - {x}) + {x} && b == (b - {x}) + {x};
      } else {
        assert a - {x} == a;
      }
    }
  }

  lemma {:induction false} RangeSetCard(n: nat)
    ensures |RangeSet(n)| == n
  {
    if n > 0 {
      RangeSetCard(n - 1);
    }
  }

  /** `updateMatchedUI`: Continue is enabled exactly when every word of the list is matched. */
  lemma ContinueMeansAllMatched(m: Matching, total: nat)
    requires MatchInv(m, total)
    ensures |m.matched| == total <==> m.matched == RangeSet(total)
  {
    RangeSetCard(total);
    SubsetCard(m.matched, RangeSet(total));
  }

  /** Once every pair is matched, no tap changes anything. */
  lemma CompleteIsFinal(m: Matching, total: nat, side: Side, id: nat)
    requires MatchInv(m, total) && |m.matched| == total && id < total
    ensures AfterPick(m, side, id) == m
  {
    ContinueMeansAllMatched(m, total);
  }

  /** Tapping the pairs of words 0 .. n - 1 in turn, each first on the left and then on the right. */
  function PickPairs(m: Matching, n: nat): Matching {
    if n == 0 then m else AfterPick(AfterPick(PickPairs(m, n - 1), Left, n - 1), Right, n - 1)
  }

  /** Matching every pair in turn from a fresh practice step matches them all, which enables Continue. */
  lemma {:induction false} PickPairsMatchesAll(n: nat)
    ensures PickPairs(Matching({}, None), n) == Matching(RangeSet(n), None)
    ensures |PickPairs(Matching({}, None), n).matched| == n
  {
    if n > 0 {
      var before := Matching(RangeSet(n - 1), None);
      PickPairsMatchesAll(n - 1);
      assert PickPairs(Matching({}, None), n) == AfterPick(AfterPick(before, Left, n - 1), Right, n - 1);
      assert n - 1 !in before.matched;
      MatchPair(before, Left, n - 1);
    }
    RangeSetCard(n);
  }

  /** The matcher's variables, updated in place by the button handlers. */
  class Matcher {
    const total: nat
    var matched: set<nat>
    var firstPick: Option<Pick>

    ghost function Snap(): Matching
      reads this
    {
      Matching(matched, firstPick)
    }

    ghost predicate Valid()
      reads this
    {
      MatchInv(Snap(), total)
    }

    /** `renderPracticeStep`: nothing matched, nothing held. */
    constructor (total: nat)
      ensures this.total == total && Valid()
      ensures matched == {} && firstPick == None
    {
      this.total := total;
      matched := {};
      firstPick := None;
    }

    /** `handlePick(side, id, el)` for the button of word `id` in column `side`. */
    method HandlePick(side: Side, id: nat)
      requires Valid() && id < total
      modifies this
      ensures Valid()
      ensures Snap() == AfterPick(old(Snap()), side, id)
    {
      PickInv(Snap(), total, side, id);
      if id in matched {
        return;
      }
      if firstPick == Some(Pick(side, id)) {
        firstPick := None;
        return;
      }
      if firstPick.None? {
        firstPick := Some(Pick(side, id));
        return;
      }
      if firstPick.value.side == side {
        firstPick := Some(Pick(side, id));
        return;
      }
      if firstPick.value.id == id {
        matched := matched + {id};
        firstPick := None;
        return;
      }
      firstPick := None;
    }

    /** `continueBtn.disabled = practiceMatched.size !== total`, as the enabled flag. */
    function ContinueEnabled(): (enabled: bool)
      requires Valid()
      reads this
      ensures enabled <==> matched == RangeSet(total)
    {
      ContinueMeansAllMatched(Snap(), total);
      |matched| == total
    }
  }
}
