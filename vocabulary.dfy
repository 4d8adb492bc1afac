/**
 * The vocabulary store (script.js, DATA and GAME FLOW): the fixed word list, the anti-repeat word
 * picker `pickNextWord` and the three-item choice set `buildChoices3`. A word is identified by its
 * index in the list, which is what the source's object identity (`===`) distinguishes.
 */
module Vocabulary {
  import opened Wrappers
  import opened Config
  import opened Shuffling

  /** One vocabulary entry: the Chinese term and its English gloss. Its exposure counter lives in the game state. */
  datatype Word = Word(jp: string, romaji: string)

  /** The six entries of the source's word list, in order. */
  const WORDS: seq<Word> := [
    Word("看见", "see"),
    Word("和我", "with me"),
    Word("都是", "(we) are all"),
    Word("朋友", "friends"),
    Word("出去", "go out"),
    Word("我就", "I will")
  ]

  // ----- pickNextWord -----

  /** Index of the draw the retry loop stops at, starting from draw k: the first draw that differs from
      `cur`, or draw MAX_RETRIES when the budget runs out. */
  function FirstDifferent(cur: nat, draws: seq<nat>, k: nat): (j: nat)
    requires k <= MAX_RETRIES < |draws|
    ensures k <= j <= MAX_RETRIES
    decreases MAX_RETRIES - k
  {
    if draws[k] != cur || k == MAX_RETRIES then k else FirstDifferent(cur, draws, k + 1)
  }

  /** The retry loop stops at the first draw that differs from `cur`, and runs out only on a run of repeats. */
  lemma {:induction false} FirstDifferentStops(cur: nat, draws: seq<nat>, k: nat)
    requires k <= MAX_RETRIES < |draws|
    ensures forall i :: k <= i < FirstDifferent(cur, draws, k) ==> draws[i] == cur
    ensures FirstDifferent(cur, draws, k) < MAX_RETRIES ==> draws[FirstDifferent(cur, draws, k)] != cur
    decreases MAX_RETRIES - k
  {
    if draws[k] == cur && k < MAX_RETRIES {
      FirstDifferentStops(cur, draws, k + 1);
    }
  }

  /** Index of the draw whose word `pickNextWord` returns, given the previous word and the list size `n`. */
  function PickIndex(current: Option<nat>, n: nat, draws: seq<nat>): (j: nat)
    requires MAX_RETRIES < |draws|
    ensures j <= MAX_RETRIES
    ensures current.None? || n <= 1 ==> j == 0
  {
    if current.Some? && n > 1 then FirstDifferent(current.value, draws, 0) else 0
  }

  /** With a previous word and more than one word, every draw before the picked one repeated the previous
      word, and the picked draw differs from it unless the retry budget ran out. */
  lemma PickIndexRetries(current: Option<nat>, n: nat, draws: seq<nat>)
    requires MAX_RETRIES < |draws| && current.Some? && n > 1
    ensures forall i :: 0 <= i < PickIndex(current, n, draws) ==> draws[i] == current.value
    ensures PickIndex(current, n, draws) < MAX_RETRIES ==> draws[PickIndex(current, n, draws)] != current.value
  {
    FirstDifferentStops(current.value, draws, 0);
  }

  /**
   * `pickNextWord`: draws a word index; when there is a previous word and more than one word, redraws
   * while the draw repeats the previous word, at most MAX_RETRIES times. `draws` are the successive
   * values of Math.floor(Math.random() * WORDS.length); `used` is how many of them were consumed.
   */
  method PickNextWord(current: Option<nat>, n: nat, draws: seq<nat>) returns (next: nat, used: nat)
    requires MAX_RETRIES < |draws|
    requires forall i :: 0 <= i < |draws| ==> draws[i] < n
    ensures used == PickIndex(current, n, draws) + 1 && next == draws[used - 1]
    ensures next < n
    ensures 1 <= used <= MAX_RETRIES + 1
    ensures current.Some? && n > 1 && next == current.value ==> used == MAX_RETRIES + 1
  {
    next := draws[0];
    used := 1;
    if current.Some? && n > 1 {
      var guard := 0;
      while next == current.value && guard < MAX_RETRIES
        invariant 0 <= guard <= MAX_RETRIES
        invariant used == guard + 1 && next == draws[guard]
        invariant forall i :: 0 <= i < guard ==> draws[i] == current.value
      {
        next := draws[guard + 1];
        guard := guard + 1;
        used := used + 1;
      }
      FirstDifferentStops(current.value, draws, 0);
    }
  }

  // ----- buildChoices3 -----

  /** `WORDS.filter(w => w !== currentWord)`: the indices below `n` other than `cur`, in list order. */
  function Others(n: nat, cur: nat): (r: seq<nat>)
    ensures |r| == if cur < n then n - 1 else n
    decreases n
  {
    if n == 0 then []
    else if n - 1 == cur then Others(n - 1, cur)
    else Others(n - 1, cur) + [n - 1]
  }

  /** The pool holds exactly the words other than the current one, each once, in list order. */
  lemma {:induction false} OthersProperties(n: nat, cur: nat)
    ensures forall k :: 0 <= k < |Others(n, cur)| ==> Others(n, cur)[k] < n && Others(n, cur)[k] != cur
    ensures forall i :: 0 <= i < n && i != cur ==> i in Others(n, cur)
    ensures forall k, l :: 0 <= k < l < |Others(n, cur)| ==> Others(n, cur)[k] < Others(n, cur)[l]
  {
    if n > 0 {
      var prev := Others(n - 1, cur);
      OthersProperties(n - 1, cur);
      if n - 1 == cur {
        assert Others(n, cur) == prev;
      } else {
        var r := prev + [n - 1];
        assert Others(n, cur) == r;
        assert forall k :: 0 <= k < |prev| ==> r[k] == prev[k];
        assert r[|prev|] == n - 1;
        forall i | 0 <= i < n && i != cur
          ensures i in r
        {
          if i < n - 1 {
            assert i in prev;
          } else {
            assert r[|prev|] == i;
          }
        }
      }
    }
  }

  /** The k-th entry of the shuffled pool, or the current word when the pool is too short (`shuffledPool[k] || currentWord`). */
  function Distractor(pool: seq<nat>, k: nat, cur: nat): nat {
    if k < |pool| then pool[k] else cur
  }

  /** The choice list `buildChoices3` presents for current word `cur`, given the draws of its two shuffles. */
  function Choices(n: nat, cur: nat, poolDraws: seq<nat>, orderDraws: seq<nat>): (c: seq<nat>)
    requires cur < n && ValidDraws(n - 1, poolDraws) && ValidDraws(3, orderDraws)
    ensures |c| == 3
  {
    var pool := Shuffled(Others(n, cur), poolDraws);
    Shuffled([cur, Distractor(pool, 0, cur), Distractor(pool, 1, cur)], orderDraws)
  }

  /** The two distractors are other words of the list, distinct from each other when there are enough
      of them; the current word stands in for each one that the pool cannot supply. */
  lemma DistractorsProperties(n: nat, cur: nat, poolDraws: seq<nat>)
    requires cur < n && ValidDraws(n - 1, poolDraws)
    ensures var pool := Shuffled(Others(n, cur), poolDraws);
      var w1, w2 := Distractor(pool, 0, cur), Distractor(pool, 1, cur);
      && w1 < n && w2 < n
      && (w1 == cur <==> n < 2)
      && (w2 == cur <==> n < 3)
      && (n >= 3 ==> w1 != w2)
  {
    var others := Others(n, cur);
    var pool := Shuffled(others, poolDraws);
    OthersProperties(n, cur);
    ShuffledPermutes(others, poolDraws);
    if 0 < |pool| {
      assert pool[0] in multiset(others);
    }
    if 1 < |pool| {
      assert pool[1] in multiset(others);
    }
  }

  /** How often a value occurs in a three-element sequence. */
  lemma ThreeCount(t: seq<nat>, x: nat)
    requires |t| == 3
    ensures multiset(t)[x] == (if t[0] == x then 1 else 0) + (if t[1] == x then 1 else 0) + (if t[2] == x then 1 else 0)
  {
    assert t == [t[0]] + [t[1]] + [t[2]];
  }

  /**
   * The choice list has three entries, all words of the list, and contains the current word: once when
   * there are at least three words (and then the three are pairwise distinct), otherwise padded with it.
   */
  lemma ChoicesProperties(n: nat, cur: nat, poolDraws: seq<nat>, orderDraws: seq<nat>)
    requires cur < n && ValidDraws(n - 1, poolDraws) && ValidDraws(3, orderDraws)
    ensures var c := Choices(n, cur, poolDraws, orderDraws);
      && cur in c
      && (forall k :: 0 <= k < |c| ==> c[k] < n)
      && multiset(c)[cur] == (if n >= 3 then 1 else 4 - n)
      && (n >= 3 ==> Distinct(c))
  {
    var pool := Shuffled(Others(n, cur), poolDraws);
    var w1, w2 := Distractor(pool, 0, cur), Distractor(pool, 1, cur);
    DistractorsProperties(n, cur, poolDraws);
    var t: seq<nat> := [cur, w1, w2];
    var c := Shuffled(t, orderDraws);
    ShuffledPermutes(t, orderDraws);
    ThreeCount(t, cur);
    assert c == Choices(n, cur, poolDraws, orderDraws);
    assert cur in c by {
      assert cur in multiset(t);
    }
    forall k | 0 <= k < |c| ensures c[k] < n {
      assert c[k] in multiset(t);
    }
  }

  /** With the six fixed words the three choices are pairwise distinct and include the current word exactly once. */
  lemma FixedWordsChoicesDistinct(cur: nat, poolDraws: seq<nat>, orderDraws: seq<nat>)
    requires cur < |WORDS| && ValidDraws(|WORDS| - 1, poolDraws) && ValidDraws(3, orderDraws)
    ensures var c := Choices(|WORDS|, cur, poolDraws, orderDraws);
      Distinct(c) && multiset(c)[cur] == 1
  {
    ChoicesProperties(|WORDS|, cur, poolDraws, orderDraws);
  }

  /** `buildChoices3` (choice list only): pool of the other words, shuffled; two distractors; the three shuffled. */
  method BuildChoices3(n: nat, cur: nat, poolDraws: seq<nat>, orderDraws: seq<nat>) returns (choices: seq<nat>)
    requires cur < n && ValidDraws(n - 1, poolDraws) && ValidDraws(3, orderDraws)
    ensures choices == Choices(n, cur, poolDraws, orderDraws)
  {
    var pool := Others(n, cur);
    var shuffledPool := Shuffle(pool, poolDraws);
    var wrong1 := if 0 < |shuffledPool| then shuffledPool[0] else cur;
    var wrong2 := if 1 < |shuffledPool| then shuffledPool[1] else cur;
    var three: seq<nat> := [cur, wrong1, wrong2];
    choices := Shuffle(three, orderDraws);
  }
}
