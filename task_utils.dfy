/**
 * Editing utilities for an ordered list of records keyed by `id`: record
 * constructors, lookup, insert-after, move-by-offset, and paste-as-items.
 *
 * The list `utils.tsx` mutates in place is the `items` field of the class
 * `Collection`; every mutating operation is a method on it whose contract
 * gives the new list as a function of the old one.
 */
module TaskUtils {
  import opened Wrappers
  import LineText

  type Id = string

  /** A todo or a bookmark; both carry the `id` the list utilities key on. */
  datatype Record =
    | Todo(id: Id, text: string, isCompleted: bool, autoCompleted: bool, ident: int)
    | Bookmark(id: Id, uri: string)

  /**
   * A new todo with the given id, indented like the todo it follows (or not
   * at all), neither completed nor auto-completed, with the given text or
   * the empty text.
   */
  function CreateTodo(id: Id, afterIdent: Option<int>, text: Option<string>): (r: Record)
    ensures r.Todo? && r.id == id
    ensures r.ident == (if afterIdent.Some? then afterIdent.value else 0)
    ensures !r.isCompleted && !r.autoCompleted
    ensures r.text == (if text.Some? then text.value else "")
  {
    Todo(id, match text case Some(t) => t case None => "", false, false,
         match afterIdent case Some(n) => n case None => 0)
  }

  /** A new bookmark with the given id and the given uri or the empty one. */
  function CreateBookmark(id: Id, uri: Option<string>): (r: Record)
    ensures r.Bookmark? && r.id == id
    ensures r.uri == (if uri.Some? then uri.value else "")
  {
    Bookmark(id, match uri case Some(u) => u case None => "")
  }

  predicate Contains(s: seq<Record>, id: Id) {
    exists k :: 0 <= k < |s| && s[k].id == id
  }

  /** The position of the first record with the given id, or -1 when there is none. */
  function FindIndex(s: seq<Record>, id: Id): (i: int)
    ensures -1 <= i < |s|
    ensures i == -1 <==> !Contains(s, id)
    ensures 0 <= i ==> s[i].id == id && forall k :: 0 <= k < i ==> s[k].id != id
  {
    if s == [] then -1
    else if s[0].id == id then 0
    else
      var j := FindIndex(s[1..], id);
      if j == -1 then -1 else j + 1
  }

  /** The first record with the given id; looking up a missing id is a caller error. */
  function Find(s: seq<Record>, id: Id): (r: Record)
    requires Contains(s, id)
    ensures r.id == id
    ensures exists k :: 0 <= k < |s| && s[k] == r && forall j :: 0 <= j < k ==> s[j].id != id
  {
    s[FindIndex(s, id)]
  }

  /**
   * Where `insertAfter` puts the new record: right after the first record
   * with the anchor's id, or at the end when there is no anchor or it is
   * not in the list.
   */
  function InsertPosition(s: seq<Record>, after: Option<Id>): (p: nat)
    ensures p <= |s|
    ensures after.None? || !Contains(s, after.value) ==> p == |s|
    ensures after.Some? && Contains(s, after.value) ==>
      0 < p && s[p - 1].id == after.value && forall k :: 0 <= k < p - 1 ==> s[k].id != after.value
  {
    var insertAt := if after.Some? then FindIndex(s, after.value) else -1;
    if insertAt == -1 then |s| else insertAt + 1
  }

  /** `s.splice(p, 0, x)`: `s` with `x` placed at position `p`, everything before it and after it kept in order. */
  function InsertAt(s: seq<Record>, p: nat, x: Record): (r: seq<Record>)
    requires p <= |s|
    ensures |r| == |s| + 1 && r[p] == x
    ensures r[..p] == s[..p] && r[p + 1..] == s[p..]
  {
    s[..p] + [x] + s[p..]
  }

  /** `s.splice(i, 1)`: `s` without the record at position `i`. */
  function RemoveAt(s: seq<Record>, i: nat): (r: seq<Record>)
    requires i < |s|
    ensures |r| == |s| - 1
    ensures forall k :: 0 <= k < |r| ==> r[k] == if k < i then s[k] else s[k + 1]
  {
    s[..i] + s[i + 1..]
  }

  /**
   * The list after the record at `src` has moved to `dst`: the records in
   * between shift one place towards `src`, all others stay.
   */
  function Moved(s: seq<Record>, src: nat, dst: nat): (r: seq<Record>)
    requires src < |s| && dst < |s|
    ensures |r| == |s| && r[dst] == s[src]
    ensures forall k :: 0 <= k < |s| && k < src && k < dst ==> r[k] == s[k]
    ensures forall k :: 0 <= k < |s| && k > src && k > dst ==> r[k] == s[k]
  {
    seq(|s|, k requires 0 <= k < |s| =>
      if k == dst then s[src]
      else if src < dst && src <= k < dst then s[k + 1]
      else if dst < k <= src then s[k - 1]
      else s[k])
  }

  /** Taking the record out and putting it back at `dst` is the move. */
  lemma SpliceIsMove(s: seq<Record>, src: nat, dst: nat)
    requires src < |s| && dst < |s|
    ensures InsertAt(RemoveAt(s, src), dst, s[src]) == Moved(s, src, dst)
  {
    var r := InsertAt(RemoveAt(s, src), dst, s[src]);
    forall k | 0 <= k < |s|
      ensures r[k] == Moved(s, src, dst)[k]
    {
      if k < dst {
        assert r[k] == RemoveAt(s, src)[k];
      } else if k > dst {
        assert r[k] == RemoveAt(s, src)[k - 1];
      }
    }
  }

  /** A move keeps the records: the moved one lands at `dst`, the others keep their order. */
  lemma MovedIsRelocation(s: seq<Record>, src: nat, dst: nat)
    requires src < |s| && dst < |s|
    ensures Moved(s, src, dst)[dst] == s[src]
    ensures RemoveAt(Moved(s, src, dst), dst) == RemoveAt(s, src)
    ensures multiset(Moved(s, src, dst)) == multiset(s)
  {
    var r := Moved(s, src, dst);
    var a := RemoveAt(r, dst);
    var b := RemoveAt(s, src);
    assert a == b;
    assert r == r[..dst] + [r[dst]] + r[dst + 1..];
    assert s == s[..src] + [s[src]] + s[src + 1..];
    calc {
      multiset(r);
      multiset(r[..dst]) + multiset([r[dst]]) + multiset(r[dst + 1..]);
      multiset(a) + multiset([s[src]]);
      multiset(b) + multiset([s[src]]);
      multiset(s[..src]) + multiset([s[src]]) + multiset(s[src + 1..]);
      multiset(s);
    }
  }

  /** An insertion loses nothing: removing the new record gives back the old list. */
  lemma InsertAtKeepsOthers(s: seq<Record>, p: nat, x: Record)
    requires p <= |s|
    ensures RemoveAt(InsertAt(s, p, x), p) == s
    ensures multiset(InsertAt(s, p, x)) == multiset(s) + multiset{x}
  {
    var r := InsertAt(s, p, x);
    assert r == s[..p] + [x] + s[p..];
    assert s == s[..p] + s[p..];
    assert RemoveAt(r, p) == r[..p] + r[p + 1..];
  }

  /** The position `FindIndex` reports is pinned down by the first matching record. */
  lemma FindIndexAt(s: seq<Record>, id: Id, k: nat)
    requires k < |s| && s[k].id == id
    requires forall j :: 0 <= j < k ==> s[j].id != id
    ensures FindIndex(s, id) == k
  {
  }

  /** Changing nothing before or at position `k` keeps the first match at `k`. */
  lemma FindIndexKeptByPrefix(s: seq<Record>, t: seq<Record>, id: Id, k: nat)
    requires FindIndex(s, id) == k && k < |t| && t[..k + 1] == s[..k + 1]
    ensures FindIndex(t, id) == k
  {
    assert forall j :: 0 <= j <= k ==> t[j] == t[..k + 1][j];
    FindIndexAt(t, id, k);
  }

  /** Replacing the first match by a record with the same id keeps it the first match. */
  lemma UpdateKeepsPosition(s: seq<Record>, id: Id, k: nat, item: Record)
    requires FindIndex(s, id) == k && k < |s| && item.id == id
    ensures FindIndex(s[k := item], id) == k
  {
    FindIndexAt(s[k := item], id, k);
  }

  /** `xs.reverse()`, as a value. */
  function Reverse<T>(xs: seq<T>): (r: seq<T>)
    ensures |r| == |xs|
    ensures forall k :: 0 <= k < |xs| ==> r[k] == xs[|xs| - 1 - k]
  {
    if xs == [] then [] else Reverse(xs[1..]) + [xs[0]]
  }

  /** `xs` inserted one after another, each at the same position `p`. */
  function InsertEachAt(s: seq<Record>, p: nat, xs: seq<Record>): (r: seq<Record>)
    requires p <= |s|
    ensures |r| == |s| + |xs|
    ensures r[..p] == s[..p] && r[p + |xs|..] == s[p..]
    decreases |xs|
  {
    if xs == [] then s else InsertAt(InsertEachAt(s, p, xs[..|xs| - 1]), p, xs[|xs| - 1])
  }

  /**
   * One more `insertAfter` on the anchor at `k` of the original list lands
   * right after the anchor, as the next step of `InsertEachAt`.
   */
  lemma InsertEachAtStep(s: seq<Record>, k: nat, id: Id, xs: seq<Record>, x: Record)
    requires k < |s| && FindIndex(s, id) == k
    ensures var cur := InsertEachAt(s, k + 1, xs);
      && InsertPosition(cur, Some(id)) == k + 1
      && InsertAt(cur, k + 1, x) == InsertEachAt(s, k + 1, xs + [x])
  {
    var cur := InsertEachAt(s, k + 1, xs);
    FindIndexKeptByPrefix(s, cur, id, k);
    assert (xs + [x])[..|xs|] == xs;
  }

  /**
   * Inserting the reversed records one by one at the same position leaves
   * them in their original order, right at that position.
   */
  lemma {:induction false} InsertReversedRestoresOrder(s: seq<Record>, p: nat, ys: seq<Record>)
    requires p <= |s|
    ensures InsertEachAt(s, p, Reverse(ys)) == s[..p] + ys + s[p..]
    decreases |ys|
  {
    if ys != [] {
      var xs := Reverse(ys);
      assert xs[..|xs| - 1] == Reverse(ys[1..]);
      assert xs[|xs| - 1] == ys[0];
      InsertReversedRestoresOrder(s, p, ys[1..]);
      var t := s[..p] + ys[1..] + s[p..];
      assert t[..p] == s[..p] && t[p..] == ys[1..] + s[p..];
      assert ys == [ys[0]] + ys[1..];
    }
  }

  /** The records `fnNew` makes, one per text, all after the same record. */
  function NewRecords(after: Record, texts: seq<string>, fnNew: (Record, string) -> Record): (r: seq<Record>)
    ensures |r| == |texts|
  {
    seq(|texts|, j requires 0 <= j < |texts| => fnNew(after, texts[j]))
  }

  /** The record made for the j-th text is `fnNew` of the anchor and that text. */
  lemma NewRecordsAt(after: Record, texts: seq<string>, fnNew: (Record, string) -> Record)
    ensures forall j :: 0 <= j < |texts| ==> NewRecords(after, texts, fnNew)[j] == fnNew(after, texts[j])
  {
  }

  lemma NewRecordsPrefix(after: Record, texts: seq<string>, i: nat, fnNew: (Record, string) -> Record)
    requires i < |texts|
    ensures NewRecords(after, texts[..i + 1], fnNew) == NewRecords(after, texts[..i], fnNew) + [fnNew(after, texts[i])]
  {
  }

  /** Making records from the reversed texts gives the reversed records. */
  lemma NewRecordsReverse(after: Record, texts: seq<string>, fnNew: (Record, string) -> Record)
    ensures NewRecords(after, Reverse(texts), fnNew) == Reverse(NewRecords(after, texts, fnNew))
  {
  }

  /** One turn of the `forEach`: the next record lands after the earlier ones' anchor, extending `InsertEachAt`. */
  lemma InsertEachAfterStep(s: seq<Record>, k: nat, after: Record, texts: seq<string>, i: nat,
                            fnNew: (Record, string) -> Record)
    requires k < |s| && FindIndex(s, after.id) == k && i < |texts|
    ensures var cur := InsertEachAt(s, k + 1, NewRecords(after, texts[..i], fnNew));
      InsertAt(cur, InsertPosition(cur, Some(after.id)), fnNew(after, texts[i]))
        == InsertEachAt(s, k + 1, NewRecords(after, texts[..i + 1], fnNew))
  {
    InsertEachAtStep(s, k, after.id, NewRecords(after, texts[..i], fnNew), fnNew(after, texts[i]));
    NewRecordsPrefix(after, texts, i, fnNew);
  }

  /**
   * Paste's ordering argument: with the target at `k` updated to `item`,
   * inserting the new records for the reversed lines one by one right after
   * it puts them, in clipboard order, between the target and what followed it.
   */
  lemma PastedInOrder(s: seq<Record>, k: nat, item: Record, rest: seq<string>, fnNew: (Record, string) -> Record)
    requires k < |s|
    ensures InsertEachAt(s[k := item], k + 1, NewRecords(item, Reverse(rest), fnNew))
         == s[..k] + [item] + NewRecords(item, rest, fnNew) + s[k + 1..]
  {
    var base := s[k := item];
    var added := NewRecords(item, rest, fnNew);
    NewRecordsReverse(item, rest, fnNew);
    InsertReversedRestoresOrder(base, k + 1, added);
    assert base[..k + 1] == s[..k] + [item] && base[k + 1..] == s[k + 1..];
  }

  /** The list the editing utilities change in place. */
  class Collection {
    var items: seq<Record>

    constructor (items: seq<Record>)
      ensures this.items == items
    {
      this.items := items;
    }

    /** Inserts `item` after the first record with the anchor's id, or appends it. */
    method InsertAfter(after: Option<Id>, item: Record)
      modifies this
      ensures items == InsertAt(old(items), InsertPosition(old(items), after), item)
    {
      var insertAt := if after.Some? then FindIndex(items, after.value) else -1;
      if insertAt == -1 {
        items := items + [item];
      } else {
        items := InsertAt(items, insertAt + 1, item);
      }
    }

    /**
     * Moves the first record with `item`'s id by `shift` places (`by` in `utils.tsx`'s `move`), unless the
     * record is missing or the target position is outside the list.
     */
    method Move(item: Record, shift: int)
      modifies this
      ensures var index := FindIndex(old(items), item.id); var newIndex := index + shift;
        items == if 0 <= index && 0 <= newIndex < |old(items)| then Moved(old(items), index, newIndex) else old(items)
    {
      var index := FindIndex(items, item.id);
      var newIndex := index + shift;
      if !(0 <= index < |items|) || !(0 <= newIndex < |items|) {
        return;
      }
      var temp := items[index];
      SpliceIsMove(items, index, newIndex);
      items := RemoveAt(items, index);
      items := InsertAt(items, newIndex, temp);
    }

    /**
     * `texts.forEach(text => insertAfter(collection, after, fnNew(after, text)))`
     * with an anchor that is in the list: every new record goes right after
     * the anchor, so each one lands before the ones inserted earlier.
     */
    method InsertEachAfter(after: Record, texts: seq<string>, fnNew: (Record, string) -> Record)
      requires Contains(items, after.id)
      modifies this
      ensures var k := FindIndex(old(items), after.id);
        items == InsertEachAt(old(items), k + 1, NewRecords(after, texts, fnNew))
    {
      var k := FindIndex(items, after.id);
      ghost var base := items;
      var i := 0;
      while i < |texts|
        invariant 0 <= i <= |texts|
        invariant items == InsertEachAt(base, k + 1, NewRecords(after, texts[..i], fnNew))
      {
        InsertEachAfterStep(base, k, after, texts, i, fnNew);
        InsertAfter(Some(after.id), fnNew(after, texts[i]));
        i := i + 1;
      }
      assert texts[..i] == texts;
    }

    /**
     * Pastes clipboard text at the record with id `id`: the clipboard is cut
     * into cleaned, non-empty lines, which `PasteLines` puts into the list.
     */
    method Paste(id: Id, clipboard: string,
                 fnUpdate: (Record, string) -> Record, fnNew: (Record, string) -> Record)
      requires Contains(items, id)
      requires |LineText.PastedLines(clipboard)| > 0
      requires forall r: Record, text: string :: fnUpdate(r, text).id == r.id
      modifies this
      ensures var lines := LineText.PastedLines(clipboard);
        var k := FindIndex(old(items), id);
        var item := fnUpdate(old(items)[k], lines[0]);
        items == old(items)[..k] + [item] + NewRecords(item, lines[1..], fnNew) + old(items)[k + 1..]
    {
      var lines := LineText.PastedLines(clipboard);
      PasteLines(id, lines, fnUpdate, fnNew);
    }

    /**
     * The list part of `paste`: the first line becomes the target record's
     * text through `fnUpdate`, and every further line becomes a new record
     * from `fnNew`, inserted right after the target in reverse order so that
     * they end up in clipboard order.
     */
    method PasteLines(id: Id, lines: seq<string>,
                      fnUpdate: (Record, string) -> Record, fnNew: (Record, string) -> Record)
      requires Contains(items, id)
      requires |lines| > 0
      requires forall r: Record, text: string :: fnUpdate(r, text).id == r.id
      modifies this
      ensures var k := FindIndex(old(items), id);
        var item := fnUpdate(old(items)[k], lines[0]);
        items == old(items)[..k] + [item] + NewRecords(item, lines[1..], fnNew) + old(items)[k + 1..]
    {
      var first, rest := lines[0], lines[1..];

      // `find` hands out the record itself, which `fnUpdate` updates in place.
      var k := FindIndex(items, id);
      var item := fnUpdate(items[k], first);
      UpdateKeepsPosition(items, id, k, item);
      items := items[k := item];

      var after := item;
      InsertEachAfter(after, Reverse(rest), fnNew);
      PastedInOrder(old(items), k, item, rest, fnNew);
    }
  }
}
