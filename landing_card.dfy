/** The sample stamp card of the landing page (src/components/landing/stamp-card.tsx):
    `stamps` filled cells keyed 0.., then `10 - stamps` empty cells keyed from
    `stamps` on, both built with `Array.from({ length })`. */
module LandingCard {
  import opened Common

  /** The keys of the filled cells: `Array.from({ length: stamps })` keyed by index. */
  function FilledKeys(stamps: int): seq<int> {
    Range(0, ArrayLength(stamps))
  }

  /** The keys of the empty cells: `Array.from({ length: 10 - stamps })` keyed `i + stamps`. */
  function EmptyKeys(stamps: int): seq<int> {
    Range(stamps, ArrayLength(10 - stamps))
  }

  /** Every cell key of the grid, filled cells first; no two cells share a key. */
  function GridKeys(stamps: int): (keys: seq<int>)
    ensures NoDuplicates(keys)
  {
    var filled := FilledKeys(stamps);
    var empty := EmptyKeys(stamps);
    assert forall i :: 0 <= i < |filled| ==> filled[i] < stamps;
    assert forall i :: 0 <= i < |empty| ==> stamps <= empty[i];
    filled + empty
  }

  /** The cell counts: `stamps` filled cells, `max(0, 10 - stamps)` empty ones, so
      `max(stamps, 10)` cells for a non-negative count (exactly 10 up to 10 stamps);
      a negative count draws no filled cell and more than ten empty ones. */
  lemma CellCounts(stamps: int)
    ensures |FilledKeys(stamps)| == Max(stamps, 0)
    ensures |EmptyKeys(stamps)| == Max(10 - stamps, 0)
    ensures stamps >= 10 ==> |EmptyKeys(stamps)| == 0
    ensures stamps >= 0 ==> |GridKeys(stamps)| == Max(stamps, 10)
    ensures 0 <= stamps <= 10 ==> |GridKeys(stamps)| == 10
    ensures stamps < 0 ==> |GridKeys(stamps)| == 10 - stamps
  {
  }

  /** The keys run without gaps: for a count from 0 through 10 they are 0..9. */
  lemma GridKeysAreConsecutive(stamps: int)
    requires 0 <= stamps <= 10
    ensures GridKeys(stamps) == Range(0, 10)
  {
    var keys := GridKeys(stamps);
    assert |keys| == 10;
    forall i | 0 <= i < 10
      ensures keys[i] == i
    {
      if i >= stamps {
        assert keys[i] == EmptyKeys(stamps)[i - stamps];
      }
    }
  }
}
