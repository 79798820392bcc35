/**
 * The generic section-list editor: append a blank entry with a fresh id,
 * remove the entries with a given id, and set one field of the entry at a
 * given position on a copy of the list.
 *
 * The editor is generic over the entry type. What it needs of an entry is
 * described by a `Schema`: reading the id, the spread `{ ...item, id }`, and
 * reading and setting a field by name.
 */
module EditorSection {
  import opened Collections
  import opened Strings

  datatype Schema<!T, !F> = Schema(
    id: T -> string,
    withId: (T, string) -> T,
    get: (T, F) -> string,
    put: (T, F, string) -> T)

  /**
   * The laws an object spread obeys: setting the id or a field changes that
   * and nothing else.
   */
  ghost predicate Lawful<T(!new), F(!new)>(s: Schema<T, F>)
  {
    && (forall x, i :: s.id(s.withId(x, i)) == i)
    && (forall x, i, f :: s.get(s.withId(x, i), f) == s.get(x, f))
    && (forall x, f, v :: s.id(s.put(x, f, v)) == s.id(x))
    && (forall x, f, g, v :: s.get(s.put(x, f, v), g) == if g == f then v else s.get(x, g))
  }

  /** The id `handleAddItem` gives a new entry: the lower-cased title, a dash and the timestamp. */
  function NewId(title: string, now: nat): (id: string)
    ensures |id| > |title| + 1
    ensures id[..|title|] == ToLower(title) && id[|title|] == '-'
    ensures IsNumeral(id[|title| + 1..]) && NumeralValue(id[|title| + 1..]) == now
    ensures |id| > |title| + 2 ==> id[|title| + 1] != '0'
  {
    var id := ToLower(title) + "-" + Decimal(now);
    DecimalValue(now);
    assert id[|title| + 1..] == Decimal(now);
    id
  }

  /** Ids made for the same title at different times differ. */
  lemma NewIdInjective(title: string, a: nat, b: nat)
    requires NewId(title, a) == NewId(title, b)
    ensures a == b
  {
  }

  /** `handleAddItem`: `[...items, { ...newItem, id: newId }]`. */
  function AddItem<T(!new), F(==,!new)>(s: Schema<T, F>, items: seq<T>, newItem: T, title: string, now: nat): (r: seq<T>)
    requires Lawful(s)
    ensures |r| == |items| + 1
    ensures r[..|items|] == items
    ensures s.id(r[|items|]) == NewId(title, now)
    ensures forall f :: s.get(r[|items|], f) == s.get(newItem, f)
  {
    items + [s.withId(newItem, NewId(title, now))]
  }

  /** The ids after an addition are the old ids followed by the new id. */
  lemma AddItemIds<T(!new), F(!new)>(s: Schema<T, F>, items: seq<T>, newItem: T, title: string, now: nat)
    requires Lawful(s)
    ensures Map(AddItem(s, items, newItem, title, now), s.id) == Map(items, s.id) + [NewId(title, now)]
  {
  }

  /** `handleRemoveItem`: the entries whose id differs from `id`, in their order. */
  function RemoveItem<T(!new), F(!new)>(s: Schema<T, F>, items: seq<T>, id: string): (r: seq<T>)
    ensures forall x :: x in r ==> x in items && s.id(x) != id
    ensures forall i :: 0 <= i < |items| && s.id(items[i]) != id ==> items[i] in r
    ensures IsSubsequence(r, items)
    ensures (forall i :: 0 <= i < |items| ==> s.id(items[i]) != id) ==> r == items
  {
    var keep := (x: T) => s.id(x) != id;
    FilterIsSubsequence(items, keep);
    FilterKeepsAll(items, keep);
    Filter(items, keep)
  }

  /** `after` is `before` with exactly the entries whose id is `id` taken out, the rest unchanged and in order. */
  ghost predicate RemovedById<T(!new), F>(s: Schema<T, F>, before: seq<T>, after: seq<T>, id: string)
  {
    && IsSubsequence(after, before)
    && (forall x :: x in after ==> s.id(x) != id)
    && (forall i :: 0 <= i < |before| && s.id(before[i]) != id ==> before[i] in after)
  }

  /** The ids left after a removal are the old ids with `id` filtered out. */
  lemma RemoveItemIds<T(!new), F(!new)>(s: Schema<T, F>, items: seq<T>, id: string)
    ensures Map(RemoveItem(s, items, id), s.id) == Filter(Map(items, s.id), (x: string) => x != id)
  {
    MapFilter(items, s.id, (x: T) => s.id(x) != id, (x: string) => x != id);
  }

  /** Removing the id of an entry just added, when no other entry had it, undoes the addition. */
  lemma RemoveUndoesAdd<T(!new), F(!new)>(s: Schema<T, F>, items: seq<T>, newItem: T, title: string, now: nat)
    requires Lawful(s)
    requires forall i :: 0 <= i < |items| ==> s.id(items[i]) != NewId(title, now)
    ensures RemoveItem(s, AddItem(s, items, newItem, title, now), NewId(title, now)) == items
  {
    var id := NewId(title, now);
    var added := AddItem(s, items, newItem, title, now);
    var keep := (x: T) => s.id(x) != id;
    assert added == items + [added[|items|]];
    FilterConcat(items, [added[|items|]], keep);
    FilterKeepsAll(items, keep);
  }

  /**
   * `handleChange`: copy the list, replace the entry at `index` by the same
   * entry with field `f` set to `value`, and hand the copy on.
   */
  method ChangeItem<T(!new), F(==,!new)>(s: Schema<T, F>, items: seq<T>, index: nat, f: F, value: string) returns (updated: seq<T>)
    requires index < |items|
    ensures |updated| == |items|
    ensures forall i :: 0 <= i < |items| && i != index ==> updated[i] == items[i]
    ensures updated[index] == s.put(items[index], f, value)
    ensures Lawful(s) ==> s.id(updated[index]) == s.id(items[index])
    ensures Lawful(s) ==> forall g :: s.get(updated[index], g) == if g == f then value else s.get(items[index], g)
  {
    var copy := new T[|items|](i requires 0 <= i < |items| => items[i]);
    copy[index] := s.put(copy[index], f, value);
    updated := copy[..];
  }
}
