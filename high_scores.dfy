/**
  The high-score list: the save-score handler reads the stored list, pushes the
  new entry, sorts by score (highest first, earlier `at` first on a tie) and
  stores the first 20. A missing or unreadable stored list reads as empty.
 */
module HighScores {
  import opened Wrappers
  import Identity

  /** One saved result; `at` is the time of saving in milliseconds. */
  datatype Entry = Entry(name: string, score: int, at: int)

  /** How many entries are stored. */
  const Capacity: nat := 20

  /**
    The comparator `b.score - a.score || a.at - b.at` is not positive: `a` has a
    higher score, or the same score and an earlier or equal time.
   */
  predicate RanksNoLower(a: Entry, b: Entry) {
    a.score > b.score || (a.score == b.score && a.at <= b.at)
  }

  /** Every entry ranks no lower than every entry after it. */
  predicate Ranked(s: seq<Entry>) {
    forall i, j :: 0 <= i < j < |s| ==> RanksNoLower(s[i], s[j])
  }

  /** Puts `x` in front of the first entry it ranks no lower than (so `x` precedes its ties). */
  function InsertByRank(x: Entry, s: seq<Entry>): (r: seq<Entry>)
    ensures multiset(r) == multiset(s) + multiset{x}
  {
    if s == [] || RanksNoLower(x, s[0]) then [x] + s
    else
      assert s == [s[0]] + s[1..];
      [s[0]] + InsertByRank(x, s[1..])
  }

  /** Inserting into a ranked list keeps it ranked. */
  lemma {:induction false} InsertByRankRanked(x: Entry, s: seq<Entry>)
    requires Ranked(s)
    ensures Ranked(InsertByRank(x, s))
  {
    if s != [] && !RanksNoLower(x, s[0]) {
      var t := InsertByRank(x, s[1..]);
      InsertByRankRanked(x, s[1..]);
      forall k | 0 <= k < |t|
        ensures RanksNoLower(s[0], t[k])
      {
        assert t[k] in multiset(t);
        if t[k] != x {
          assert t[k] in multiset(s[1..]);
        }
      }
      assert InsertByRank(x, s) == [s[0]] + t;
    }
  }

  /**
    `scores.sort((a, b) => b.score - a.score || a.at - b.at)`: a stable sort,
    which inserts every entry in front of the sorted later ones.
   */
  function SortByRank(s: seq<Entry>): (r: seq<Entry>)
    ensures Ranked(r)
    ensures multiset(r) == multiset(s)
  {
    if s == [] then []
    else
      assert s == [s[0]] + s[1..];
      var rest := SortByRank(s[1..]);
      InsertByRankRanked(s[0], rest);
      InsertByRank(s[0], rest)
  }

  /** `list.slice(0, n)`. */
  function Keep(s: seq<Entry>, n: nat): (r: seq<Entry>)
    ensures |r| <= n && r <= s
    ensures |s| <= n ==> r == s
    ensures |s| > n ==> r == s[..n]
  {
    if |s| <= n then s else s[..n]
  }

  /** The list the save-score handler stores, given the list it read and the new entry. */
  function Saved(list: seq<Entry>, e: Entry): (r: seq<Entry>)
    ensures Ranked(r) && |r| <= Capacity
    ensures multiset(r) <= multiset(list) + multiset{e}
    ensures |r| == if |list| < Capacity then |list| + 1 else Capacity
  {
    var sorted := SortByRank(list + [e]);
    assert |sorted| == |list| + 1 by {
      assert |multiset(sorted)| == |multiset(list + [e])|;
    }
    var r := Keep(sorted, Capacity);
    assert sorted == r + sorted[|r|..];
    assert multiset(sorted) == multiset(r) + multiset(sorted[|r|..]);
    r
  }

  /** Below the capacity nothing is dropped: the stored list is the old one plus the new entry. */
  lemma {:induction false} SavedBelowCapacity(list: seq<Entry>, e: Entry)
    requires |list| < Capacity
    ensures multiset(Saved(list, e)) == multiset(list) + multiset{e}
    ensures e in Saved(list, e)
  {
    var sorted := SortByRank(list + [e]);
    assert |sorted| == |list| + 1 by {
      assert |multiset(sorted)| == |multiset(list + [e])|;
    }
    assert Saved(list, e) == sorted;
    assert e in multiset(Saved(list, e));
  }

  /** Every entry the slice drops ranks no higher than every entry it keeps. */
  lemma {:induction false} SavedKeepsTheBest(list: seq<Entry>, e: Entry, kept: Entry, dropped: Entry)
    requires kept in Saved(list, e)
    requires dropped in multiset(list) + multiset{e} - multiset(Saved(list, e))
    ensures RanksNoLower(kept, dropped)
  {
    var sorted := SortByRank(list + [e]);
    var r := Saved(list, e);
    assert sorted == r + sorted[|r|..];
    assert multiset(sorted) == multiset(r) + multiset(sorted[|r|..]);
    assert dropped in multiset(sorted[|r|..]);
    var i :| 0 <= i < |r| && r[i] == kept;
    var j :| 0 <= j < |sorted[|r|..]| && sorted[|r|..][j] == dropped;
    assert sorted[i] == kept && sorted[|r| + j] == dropped;
  }

  /** `readHighScores`: the stored list, or an empty list when it is missing or unreadable. */
  function ReadScores(stored: Option<seq<Entry>>): (r: seq<Entry>)
    ensures stored.None? ==> r == []
    ensures stored.Some? ==> r == stored.value
  {
    match stored
    case Some(list) => list
    case None => []
  }

  /** The high-score record of the browser's local storage. */
  class HighScoreStore {
    /** The parsed stored list; `None` when it is missing or does not parse. */
    var stored: Option<seq<Entry>>

    constructor (initial: Option<seq<Entry>>)
      ensures stored == initial
    {
      stored := initial;
    }

    /** `readHighScores()`. */
    function Read(): seq<Entry>
      reads this
    {
      ReadScores(stored)
    }

    /**
      The save-score handler: reads the list, pushes an entry for the saved
      player name (or "Player") with `score` and the time `now`, sorts it and
      stores the first 20. The stored list is then ranked and within capacity.
     */
    method SaveScore(savedName: string, score: int, now: int)
      modifies this
      ensures stored == Some(Saved(old(Read()), Entry(Identity.PlayerName(savedName), score, now)))
      ensures Ranked(Read()) && |Read()| <= Capacity
    {
      var scores := ReadScores(stored);
      scores := scores + [Entry(Identity.PlayerName(savedName), score, now)];
      scores := SortByRank(scores);
      stored := Some(Keep(scores, Capacity));
    }
  }
}
