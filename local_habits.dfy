/** The local-storage habit list (src/app/page.tsx): toggling a day on a card,
    inserting or replacing the habit handed over in the URL (matched by the part
    of its id before the first '-'), and deleting a habit. The upsert and the
    delete return the new list together with the local-storage stamp keys they
    remove. */
module LocalHabits {
  import opened Common

  datatype Habit = Habit(
    id: string,
    titleLine1: string,
    titleLine2: string,
    subtitle: string,
    numStamps: int)

  /** The local-storage key under which a habit's stamped days are kept. */
  function StampsKey(id: string): string {
    "stamps_" + id
  }

  /** Each habit has its own stamp key. */
  lemma StampsKeyInjective(a: string, b: string)
    requires StampsKey(a) == StampsKey(b)
    ensures a == b
  {
    assert a == StampsKey(a)[7..] && b == StampsKey(b)[7..];
  }

  /** `StampCard.toggleStamp`: a stamped day is filtered out (every copy of it), an
      unstamped day is appended. */
  function ToggleStamp(stamped: seq<int>, day: int): (r: seq<int>)
    ensures day in r <==> day !in stamped
    ensures day in stamped ==> multiset(r) == multiset(stamped)[day := 0]
    ensures day !in stamped ==> r == stamped + [day]
  {
    if day in stamped then Without(stamped, day) else stamped + [day]
  }

  /** Removing a day keeps the other days in their order: the list splits anywhere
      into two parts that are filtered separately. */
  lemma ToggleRemovalKeepsOrder(a: seq<int>, b: seq<int>, day: int)
    requires day in a + b
    ensures ToggleStamp(a + b, day) == Without(a, day) + Without(b, day)
  {
    FilterConcat(a, b, NotEqual(day));
  }

  /** Toggling a day twice: an unstamped day leaves the list exactly as it was; a
      stamped day of a list without duplicates moves to the end, so the same days
      are stamped. */
  lemma ToggleStampTwice(stamped: seq<int>, day: int)
    ensures day !in stamped ==> ToggleStamp(ToggleStamp(stamped, day), day) == stamped
    ensures day in stamped && NoDuplicates(stamped) ==>
              ToggleStamp(ToggleStamp(stamped, day), day) == Without(stamped, day) + [day] &&
              multiset(ToggleStamp(ToggleStamp(stamped, day), day)) == multiset(stamped)
  {
    if day !in stamped {
      FilterConcat(stamped, [day], NotEqual(day));
      FilterKeepsAll(stamped, NotEqual(day));
      assert Filter([day], NotEqual(day)) == [];
    } else if NoDuplicates(stamped) {
      DistinctCounts(stamped, day);
      assert multiset(stamped)[day] == 1;
    }
  }

  /** `id.split('-')[0]`: the text before the first '-', or the whole id when it
      has none. */
  function IdPrefix(id: string): (p: string)
    ensures '-' !in p
    ensures p <= id
    ensures |p| < |id| ==> id[|p|] == '-'
  {
    match FirstIndex(id, '-')
    case None => id
    case Some(k) => id[..k]
  }

  /** The three properties above pin the prefix down: any hyphen-free prefix of the
      id that ends the id or stops at a '-' is the prefix. */
  lemma IdPrefixUnique(id: string, p: string)
    requires '-' !in p && p <= id && (|p| < |id| ==> id[|p|] == '-')
    ensures p == IdPrefix(id)
  {
  }

  /** The list and the stamp keys an operation leaves: the new habits array and the
      `localStorage.removeItem` calls it makes. */
  datatype StorageUpdate = StorageUpdate(habits: seq<Habit>, removedKeys: set<string>)

  /** The test `h => h.id.split('-')[0] === id.split('-')[0]`. */
  function SharesPrefix(id: string): Habit -> bool {
    (h: Habit) => IdPrefix(h.id) == IdPrefix(id)
  }

  /** `prevHabits.findIndex(h => h.id.split('-')[0] === newHabit.id.split('-')[0])`. */
  function PrefixIndex(habits: seq<Habit>, id: string): Option<nat> {
    FindIndex(habits, SharesPrefix(id))
  }

  /** What the `habit` URL parameter effect makes of the list: the first habit
      whose id has the same prefix is replaced (dropping the old stamps when its id
      differs), otherwise the new habit is appended. */
  function Upserted(prev: seq<Habit>, newHabit: Habit): StorageUpdate {
    match PrefixIndex(prev, newHabit.id)
    case Some(i) =>
      StorageUpdate(prev[i := newHabit],
                    if prev[i].id != newHabit.id then {StampsKey(prev[i].id)} else {})
    case None => StorageUpdate(prev + [newHabit], {})
  }

  /** A habit with a known prefix takes the place of the first habit with that
      prefix; the length and every other entry stay. */
  lemma UpsertReplacesFirstMatch(prev: seq<Habit>, newHabit: Habit, i: nat)
    requires i < |prev| && IdPrefix(prev[i].id) == IdPrefix(newHabit.id)
    requires forall j :: 0 <= j < i ==> IdPrefix(prev[j].id) != IdPrefix(newHabit.id)
    ensures var r := Upserted(prev, newHabit);
            |r.habits| == |prev| && r.habits[i] == newHabit &&
            (forall j :: 0 <= j < |prev| && j != i ==> r.habits[j] == prev[j]) &&
            (prev[i].id != newHabit.id <==> StampsKey(prev[i].id) in r.removedKeys) &&
            r.removedKeys <= {StampsKey(prev[i].id)}
  {
    FindIndexIs(prev, SharesPrefix(newHabit.id), i);
  }

  /** A habit with a new prefix is appended and removes no stamps. */
  lemma UpsertAppendsNewPrefix(prev: seq<Habit>, newHabit: Habit)
    requires forall j :: 0 <= j < |prev| ==> IdPrefix(prev[j].id) != IdPrefix(newHabit.id)
    ensures Upserted(prev, newHabit) == StorageUpdate(prev + [newHabit], {})
  {
    assert PrefixIndex(prev, newHabit.id).None?;
  }

  /** The habit put at the first match stays the first match, so a second upsert
      puts it back where it is. */
  lemma UpsertAgainAt(prev: seq<Habit>, newHabit: Habit, i: nat)
    requires PrefixIndex(prev, newHabit.id) == Some(i)
    ensures Upserted(prev[i := newHabit], newHabit) == StorageUpdate(prev[i := newHabit], {})
  {
    var once := prev[i := newHabit];
    assert forall j :: 0 <= j < i ==> once[j] == prev[j];
    FindIndexIs(once, SharesPrefix(newHabit.id), i);
    assert once[i := newHabit] == once;
  }

  /** An appended habit is the first match of its prefix, so a second upsert puts
      it back where it is. */
  lemma UpsertAgainAppended(prev: seq<Habit>, newHabit: Habit)
    requires PrefixIndex(prev, newHabit.id).None?
    ensures Upserted(prev + [newHabit], newHabit) == StorageUpdate(prev + [newHabit], {})
  {
    var once := prev + [newHabit];
    assert forall j :: 0 <= j < |prev| ==> once[j] == prev[j];
    FindIndexIs(once, SharesPrefix(newHabit.id), |prev|);
    assert once[|prev| := newHabit] == once;
  }

  /** Handing over the same habit a second time changes nothing more. */
  lemma UpsertIdempotent(prev: seq<Habit>, newHabit: Habit)
    ensures var once := Upserted(prev, newHabit).habits;
            Upserted(once, newHabit) == StorageUpdate(once, {})
  {
    match PrefixIndex(prev, newHabit.id)
    case Some(i) => UpsertAgainAt(prev, newHabit, i);
    case None => UpsertAgainAppended(prev, newHabit);
  }

  /** The `findIndex` search as a loop: the position of the first habit whose id
      has the prefix of `id`, or the length of the list when none has. */
  method SearchPrefix(prev: seq<Habit>, id: string) returns (i: nat)
    ensures i <= |prev|
    ensures i < |prev| ==> PrefixIndex(prev, id) == Some(i)
    ensures i == |prev| ==> PrefixIndex(prev, id).None?
  {
    var prefix := IdPrefix(id);
    i := 0;
    while i < |prev| && IdPrefix(prev[i].id) != prefix
      invariant 0 <= i <= |prev|
      invariant forall j :: 0 <= j < i ==> IdPrefix(prev[j].id) != prefix
    {
      i := i + 1;
    }
    if i < |prev| {
      FindIndexIs(prev, SharesPrefix(id), i);
    } else {
      assert forall j :: 0 <= j < |prev| ==> !SharesPrefix(id)(prev[j]);
    }
  }

  /** `[...prevHabits]`, then `updatedHabits[i] = newHabit` on the copy: the habit
      at `i` is replaced, and its stamp key is removed when its id differs. */
  method ReplaceAt(prev: seq<Habit>, i: nat, newHabit: Habit)
    returns (updated: seq<Habit>, removedKeys: set<string>)
    requires i < |prev|
    ensures updated == prev[i := newHabit]
    ensures removedKeys == if prev[i].id != newHabit.id then {StampsKey(prev[i].id)} else {}
  {
    var copy := new Habit[|prev|](j requires 0 <= j < |prev| => prev[j]);
    assert copy[..] == prev;
    var oldHabit := copy[i];
    removedKeys := if oldHabit.id != newHabit.id then {StampsKey(oldHabit.id)} else {};
    copy[i] := newHabit;
    updated := copy[..];
  }

  /** The effect of the `habit` URL parameter, as the page runs it: the prefix is
      searched, then the copied list is updated in place at the match or extended.
      A parameter that does not decode (None) leaves everything as is. */
  method ApplyNewHabit(prev: seq<Habit>, decoded: Option<Habit>)
    returns (updated: seq<Habit>, removedKeys: set<string>)
    ensures decoded.None? ==> updated == prev && removedKeys == {}
    ensures decoded.Some? ==> StorageUpdate(updated, removedKeys) == Upserted(prev, decoded.value)
  {
    if decoded.None? {
      return prev, {};
    }
    var newHabit := decoded.value;
    var i := SearchPrefix(prev, newHabit.id);
    if i < |prev| {
      updated, removedKeys := ReplaceAt(prev, i, newHabit);
    } else {
      updated := prev + [newHabit];
      removedKeys := {};
    }
  }

  /** The test `h => h.id !== id`. */
  function HasOtherId(id: string): Habit -> bool {
    (h: Habit) => h.id != id
  }

  /** `handleDeleteHabit` and the `delete` URL parameter: every habit with that id
      is filtered out, every other habit is kept as often as it occurs, and the
      stamp key of the id is removed. */
  function Deleted(habits: seq<Habit>, id: string): (r: StorageUpdate)
    ensures forall i :: 0 <= i < |r.habits| ==> r.habits[i].id != id && r.habits[i] in habits
    ensures forall i :: 0 <= i < |habits| && habits[i].id != id ==> habits[i] in r.habits
    ensures forall h: Habit :: multiset(r.habits)[h] == if h.id != id then multiset(habits)[h] else 0
    ensures |r.habits| <= |habits|
    ensures r.removedKeys == {StampsKey(id)}
  {
    var kept := Filter(habits, HasOtherId(id));
    FilterMembers(habits, HasOtherId(id));
    assert forall h: Habit :: multiset(kept)[h] == if h.id != id then multiset(habits)[h] else 0 by {
      forall h: Habit ensures multiset(kept)[h] == if h.id != id then multiset(habits)[h] else 0 {
        FilterCounts(habits, HasOtherId(id), h);
      }
    }
    StorageUpdate(kept, {StampsKey(id)})
  }

  /** Deleting keeps the remaining habits in their order. */
  lemma DeleteKeepsOrder(a: seq<Habit>, b: seq<Habit>, id: string)
    ensures Deleted(a + b, id).habits == Deleted(a, id).habits + Deleted(b, id).habits
  {
    FilterConcat(a, b, HasOtherId(id));
  }
}
