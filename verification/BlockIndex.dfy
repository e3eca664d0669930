/**
 What the backfill publisher computes from the index, as functions of the set of
 marked blocks. The imperative publisher and the concurrent protocol both refer to
 these functions, so that the two models agree on what a round does.
 */
module BlockIndex {
  import opened Prelude

  /** How many blocks of [from, b) are not marked. */
  function Rank(marked: set<nat>, from: nat, b: nat): nat
    decreases b
  {
    if b <= from then 0
    else Rank(marked, from, b - 1) + if b - 1 in marked then 0 else 1
  }

  /** The first k unmarked blocks of [from, end), in ascending order. */
  function FirstUnmarked(marked: set<nat>, from: nat, end: nat, k: nat): seq<nat>
    decreases end - from
  {
    if end <= from || k == 0 then []
    else if from in marked then FirstUnmarked(marked, from + 1, end, k)
    else [from] + FirstUnmarked(marked, from + 1, end, k - 1)
  }

  /** The first unmarked block at or after c, or limit if all blocks of [c, limit) are marked. */
  function NextUnmarked(marked: set<nat>, c: nat, limit: nat): nat
    decreases limit - c
  {
    if limit <= c || c !in marked then c else NextUnmarked(marked, c + 1, limit)
  }

  /** Where one call of `updateCursor` leaves the cursor. */
  function CursorAfter(marked: set<nat>, cursor: nat, batchSize: nat): nat {
    if batchSize == 0 then cursor else NextUnmarked(marked, cursor, cursor + 2 * batchSize + 1)
  }

  /** `latest - tipBuffer` on uint64: it wraps when the chain is shorter than the buffer. */
  function MaxBlock(latest: nat, tipBuffer: nat): nat {
    (latest - tipBuffer) % 0x1_0000_0000_0000_0000
  }

  /** The unsigned difference of two uint64. */
  lemma MaxBlockIs(latest: nat, tipBuffer: nat)
    requires latest < 0x1_0000_0000_0000_0000 && tipBuffer < 0x1_0000_0000_0000_0000
    ensures MaxBlock(latest, tipBuffer)
         == if tipBuffer <= latest then latest - tipBuffer else latest - tipBuffer + 0x1_0000_0000_0000_0000
  {
  }

  // ----- Rank

  /** Rank counts: it is the cardinality of the set of unmarked blocks of [from, b). */
  lemma {:induction false} RankIsCount(marked: set<nat>, from: nat, b: nat)
    ensures Rank(marked, from, b) == |set u: nat | from <= u < b && u !in marked|
    decreases b
  {
    var below := set u: nat | from <= u < b && u !in marked;
    if b <= from {
      assert below == {};
    } else {
      var before := set u: nat | from <= u < b - 1 && u !in marked;
      RankIsCount(marked, from, b - 1);
      assert below == if b - 1 in marked then before else before + {b - 1};
    }
  }

  lemma {:induction false} RankSplit(marked: set<nat>, a: nat, b: nat, c: nat)
    requires a <= b <= c
    ensures Rank(marked, a, c) == Rank(marked, a, b) + Rank(marked, b, c)
    decreases c
  {
    if b == c {
    } else {
      RankSplit(marked, a, b, c - 1);
    }
  }

  /** Marking never raises a rank: other things equal, a block only gets closer to the cursor. */
  lemma {:induction false} RankAntitone(marked: set<nat>, more: set<nat>, from: nat, b: nat)
    requires marked <= more
    ensures Rank(more, from, b) <= Rank(marked, from, b)
    decreases b
  {
    if b <= from {
    } else {
      RankAntitone(marked, more, from, b - 1);
    }
  }

  /** Any set of unmarked blocks of [from, b) has at most Rank elements. */
  lemma RankBounds(marked: set<nat>, from: nat, b: nat, s: set<nat>)
    requires forall u :: u in s ==> from <= u < b && u !in marked
    ensures |s| <= Rank(marked, from, b)
  {
    RankIsCount(marked, from, b);
    SubsetCardinality(s, (set u: nat | from <= u < b && u !in marked));
  }

  /** Conversely, a set that holds every unmarked block of [from, b) has at least Rank elements. */
  lemma RankCovered(marked: set<nat>, from: nat, b: nat, s: set<nat>)
    requires forall u: nat :: from <= u < b && u !in marked ==> u in s
    ensures Rank(marked, from, b) <= |s|
  {
    RankIsCount(marked, from, b);
    SubsetCardinality((set u: nat | from <= u < b && u !in marked), s);
  }

  /** Blocks between two possible cursors do not count when they are all marked. */
  lemma {:induction false} RankFromCursor(marked: set<nat>, start: nat, cursor: nat, b: nat)
    requires start <= cursor <= b
    requires forall u: nat :: start <= u < cursor ==> u in marked
    ensures Rank(marked, start, b) == Rank(marked, cursor, b)
  {
    RankSplit(marked, start, cursor, b);
    RankCovered(marked, start, cursor, {});
  }

  // ----- FirstUnmarked

  /**
   The blocks selected are exactly the unmarked blocks of [from, end) that have fewer
   than k unmarked blocks before them.
   */
  lemma {:induction false} FirstUnmarkedMembers(marked: set<nat>, from: nat, end: nat, k: nat, b: nat)
    ensures b in FirstUnmarked(marked, from, end, k)
       <==> from <= b < end && b !in marked && Rank(marked, from, b) < k
    decreases end - from
  {
    if end <= from || k == 0 {
    } else {
      if from in marked {
        FirstUnmarkedMembers(marked, from + 1, end, k, b);
      } else {
        FirstUnmarkedMembers(marked, from + 1, end, k - 1, b);
      }
      if from < b {
        RankSplit(marked, from, from + 1, b);
      }
    }
  }

  lemma {:induction false} FirstUnmarkedAscending(marked: set<nat>, from: nat, end: nat, k: nat)
    ensures Ascending(FirstUnmarked(marked, from, end, k))
    decreases end - from
  {
    if end <= from || k == 0 {
    } else {
      if from in marked {
        FirstUnmarkedAscending(marked, from + 1, end, k);
      } else {
        FirstUnmarkedAscending(marked, from + 1, end, k - 1);
        var rest := FirstUnmarked(marked, from + 1, end, k - 1);
        forall j | 0 <= j < |rest| ensures from < rest[j] {
          FirstUnmarkedMembers(marked, from + 1, end, k - 1, rest[j]);
        }
      }
    }
  }

  /** As many blocks as asked for, or all there are. */
  lemma {:induction false} FirstUnmarkedLength(marked: set<nat>, from: nat, end: nat, k: nat)
    ensures |FirstUnmarked(marked, from, end, k)| == Min(k, Rank(marked, from, end))
    decreases end - from
  {
    if end <= from || k == 0 {
    } else {
      RankSplit(marked, from, from + 1, end);
      if from in marked {
        FirstUnmarkedLength(marked, from + 1, end, k);
      } else {
        FirstUnmarkedLength(marked, from + 1, end, k - 1);
      }
    }
  }

  // ----- The cursor

  /** The cursor stops at the first unmarked block, or at the limit. */
  lemma {:induction false} NextUnmarkedMeaning(marked: set<nat>, c: nat, limit: nat)
    requires c <= limit
    ensures var r := NextUnmarked(marked, c, limit);
            && c <= r <= limit
            && (forall u :: c <= u < r ==> u in marked)
            && (r < limit ==> r !in marked)
    decreases limit - c
  {
    if limit <= c || c !in marked {
    } else {
      NextUnmarkedMeaning(marked, c + 1, limit);
    }
  }

  /**
   `updateCursor` moves the cursor over marked blocks only, and either reaches an
   unmarked block or exhausts the 2 * batchSize + 1 blocks that it asked for.
   */
  lemma CursorAfterMeaning(marked: set<nat>, cursor: nat, batchSize: nat)
    ensures var r := CursorAfter(marked, cursor, batchSize);
            && cursor <= r <= cursor + 2 * batchSize + 1
            && (forall u :: cursor <= u < r ==> u in marked)
            && (batchSize > 0 ==> r == cursor + 2 * batchSize + 1 || r !in marked)
            && (batchSize == 0 ==> r == cursor)
  {
    NextUnmarkedMeaning(marked, cursor, cursor + 2 * batchSize + 1);
  }
}
