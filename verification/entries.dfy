/** The sub-collection editor behind the experience and education routes:
    an ordered array of entries inside a profile, each carrying the
    identifier the document store assigned when it was added. */
module Entries {
  import opened Optional

  type EntryId = string

  datatype Entry<T> = Entry(id: EntryId, body: T)

  /** Some entry of `xs` carries `id`. */
  predicate HasId<T>(xs: seq<Entry<T>>, id: EntryId) {
    exists i :: 0 <= i < |xs| && xs[i].id == id
  }

  /** `array.unshift(e)`: the new entry goes to the front. */
  function InsertHead<T>(xs: seq<Entry<T>>, e: Entry<T>): (r: seq<Entry<T>>)
    ensures |r| == |xs| + 1
    ensures r[0] == e && r[1..] == xs
    ensures HasId(r, e.id)
  {
    [e] + xs
  }

  /** `xs.map(x => x._id.toString()).indexOf(id)`: the position of the first
      entry carrying `id`, or -1 when there is none. */
  function IndexOf<T>(xs: seq<Entry<T>>, id: EntryId): (k: int)
    ensures -1 <= k < |xs|
    ensures k == -1 <==> !HasId(xs, id)
    ensures k >= 0 ==> xs[k].id == id && forall j :: 0 <= j < k ==> xs[j].id != id
  {
    if |xs| == 0 then -1
    else if xs[0].id == id then 0
    else
      var k := IndexOf(xs[1..], id);
      assert forall j :: 1 <= j < |xs| ==> xs[j] == xs[1..][j - 1];
      if k == -1 then -1 else k + 1
  }

  /** Removal by identifier: `None` when no entry has `id` (the caller
      reports an error and saves nothing), otherwise `xs` with the first
      matching entry spliced out (`splice(removeIndex, 1)`). */
  function Remove<T>(xs: seq<Entry<T>>, id: EntryId): (r: Option<seq<Entry<T>>>)
    ensures r.None? <==> !HasId(xs, id)
    ensures r.Some? ==> |r.value| == |xs| - 1
    ensures r.Some? ==> var k := IndexOf(xs, id);
      forall i :: 0 <= i < |r.value| ==> r.value[i] == (if i < k then xs[i] else xs[i + 1])
  {
    var k := IndexOf(xs, id);
    if k == -1 then None else Some(xs[..k] + xs[k + 1..])
  }

  /** Removal takes away exactly one entry, one that carries `id`, and
      keeps every other entry. */
  lemma RemoveIsMultisetDelete<T>(xs: seq<Entry<T>>, id: EntryId)
    requires HasId(xs, id)
    ensures Remove(xs, id).Some?
    ensures multiset(Remove(xs, id).value) + multiset{xs[IndexOf(xs, id)]} == multiset(xs)
  {
    var k := IndexOf(xs, id);
    var before, after := xs[..k], xs[k + 1..];
    assert Remove(xs, id).value == before + after;
    SplitMultiset(xs, k);
  }

  lemma SplitMultiset<T>(xs: seq<T>, k: nat)
    requires k < |xs|
    ensures multiset(xs[..k] + xs[k + 1..]) + multiset{xs[k]} == multiset(xs)
  {
    assert xs == xs[..k] + [xs[k]] + xs[k + 1..];
  }

  /** Removing the entry just inserted at the front restores the collection,
      whatever identifiers the old entries carry. */
  lemma RemoveUndoesInsert<T>(xs: seq<Entry<T>>, e: Entry<T>)
    ensures Remove(InsertHead(xs, e), e.id) == Some(xs)
  {
    var ys := InsertHead(xs, e);
    assert IndexOf(ys, e.id) == 0;
    assert ys[..0] + ys[1..] == xs;
  }

  /** The entries after inserting `es` one by one, first to last. */
  function InsertAll<T>(xs: seq<Entry<T>>, es: seq<Entry<T>>): seq<Entry<T>>
    decreases |es|
  {
    if |es| == 0 then xs else InsertAll(InsertHead(xs, es[0]), es[1..])
  }

  function Reverse<T>(s: seq<T>): (r: seq<T>)
    ensures |r| == |s|
    ensures forall i :: 0 <= i < |s| ==> r[i] == s[|s| - 1 - i]
  {
    if |s| == 0 then [] else Reverse(s[1..]) + [s[0]]
  }

  /** Reading back after a series of insertions gives the newest entry
      first: reverse insertion order, then what was there before. */
  lemma {:induction false} InsertAllReverses<T>(xs: seq<Entry<T>>, es: seq<Entry<T>>)
    ensures InsertAll(xs, es) == Reverse(es) + xs
    decreases |es|
  {
    if |es| > 0 {
      InsertAllReverses(InsertHead(xs, es[0]), es[1..]);
      assert Reverse(es) == Reverse(es[1..]) + [es[0]];
    }
  }
}
