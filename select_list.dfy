/** The searchable, keyboard-navigable select lists of the database step.
    The database list and the table ("schema") list behave identically; each
    is a backing list of entries, and what the user sees is a filtered view
    of it, held here as the positions of the visible entries in the backing
    list, so that a `selected` flag written through the view lands in the
    backing list. */
module SelectList {
  import opened Wrappers
  import opened Strings

  /** One entry of a select list: `{ idx, name, selected }`. */
  datatype Item = Item(idx: int, name: string, selected: bool)

  /** Key codes the list handler reacts to. */
  const EnterKey := 13
  const UpKey := 38
  const DownKey := 40

  /** The scroll height of one list entry. */
  const ScrollUnit := 25

  /** The entries pushed onto a list for the names a lookup returned: one
      per name, in order, numbered by position, none flagged. */
  function MakeItems(names: seq<string>): (r: seq<Item>)
    ensures |r| == |names|
    ensures forall i :: 0 <= i < |r| ==> r[i].idx == i && r[i].name == names[i] && !r[i].selected
  {
    seq(|names|, i requires 0 <= i < |names| => Item(i, names[i], false))
  }

  /** `item.name.toLowerCase().indexOf(search.toLowerCase()) > -1`: the
      search text occurs in the name, both lower-cased. */
  predicate Matches(item: Item, search: string): (b: bool)
    ensures b <==> exists k :: OccursAt(Lower(item.name), Lower(search), k)
  {
    IndexOfFinds(Lower(item.name), Lower(search));
    IndexOf(Lower(item.name), Lower(search)) > -1
  }

  /** Every position of `view` names an entry of a list of length `n`. */
  predicate InRange(view: seq<nat>, n: nat)
  {
    forall p :: 0 <= p < |view| ==> view[p] < n
  }

  /** A view: positions into a list of length `n`, in list order, each once. */
  predicate IsView(view: seq<nat>, n: nat)
  {
    InRange(view, n) && forall p, q :: 0 <= p < q < |view| ==> view[p] < view[q]
  }

  /** The view that shows the whole list. */
  function AllPositions(n: nat): (r: seq<nat>)
    ensures |r| == n && IsView(r, n)
    ensures forall i :: 0 <= i < n ==> r[i] == i
  {
    seq(n, i requires 0 <= i < n => i)
  }

  /** The whole-list view shows every entry. */
  lemma AllPositionsShowsAll(n: nat)
    ensures forall i :: 0 <= i < n ==> i in AllPositions(n)
  {
    var r := AllPositions(n);
    forall i | 0 <= i < n ensures i in r {
      assert r[i] == i;
    }
  }

  /** The positions below `n` whose entries match `search`, in list order. */
  function FilterPrefix(items: seq<Item>, search: string, n: nat): (view: seq<nat>)
    requires n <= |items|
    ensures IsView(view, n)
    ensures forall i {:trigger Matches(items[i], search)} :: 0 <= i < n ==> (i in view <==> Matches(items[i], search))
  {
    if n == 0 then []
    else
      var rest := FilterPrefix(items, search, n - 1);
      var last := Matches(items[n - 1], search);
      var view := if last then rest + [n - 1] else rest;
      assert forall i :: i in view <==> i in rest || (last && i == n - 1);
      view
  }

  /** Every entry matches the empty search text. */
  lemma EmptySearchMatchesAll(items: seq<Item>)
    ensures forall i :: 0 <= i < |items| ==> Matches(items[i], "")
  {
    assert Lower("") == "";
    forall i | 0 <= i < |items| ensures Matches(items[i], "") {
      EmptyFoundFirst(Lower(items[i].name));
    }
  }

  /** The `filteredDbList` / `filteredSchemaList` getters: the entries whose
      name contains the search text, ignoring case, in list order; the whole
      list when the search text is empty. */
  function FilteredView(items: seq<Item>, search: string): (view: seq<nat>)
    ensures IsView(view, |items|)
    ensures forall i {:trigger Matches(items[i], search)} :: 0 <= i < |items| ==> (i in view <==> Matches(items[i], search))
  {
    if |search| > 0 then FilterPrefix(items, search, |items|)
    else
      EmptySearchMatchesAll(items);
      AllPositionsShowsAll(|items|);
      AllPositions(|items|)
  }

  /** After its first position, a view holds exactly its other members. */
  lemma ViewTail(v: seq<nat>, n: nat)
    requires IsView(v, n) && v != []
    ensures IsView(v[1..], n)
    ensures forall i :: i in v[1..] <==> i in v && i != v[0]
  {
    forall i | i in v && i != v[0] ensures i in v[1..] {
      var p :| 0 <= p < |v| && v[p] == i;
      assert v[1..][p - 1] == i;
    }
  }

  /** A non-empty sequence has a member. */
  lemma FirstIsMember(v: seq<nat>)
    ensures v != [] ==> v[0] in v
  {
  }

  /** Two views with the same members are the same view: a view is fixed by
      which entries it shows. */
  lemma {:induction false} ViewUnique(v: seq<nat>, w: seq<nat>, n: nat)
    requires IsView(v, n) && IsView(w, n)
    requires forall i :: i in v <==> i in w
    ensures v == w
    decreases |v|
  {
    FirstIsMember(v);
    FirstIsMember(w);
    if v != [] && w != [] {
      assert v[0] in w && w[0] in v;
      var j :| 0 <= j < |w| && w[j] == v[0];
      var k :| 0 <= k < |v| && v[k] == w[0];
      assert w[0] <= w[j] && v[0] <= v[k];
      ViewTail(v, n);
      ViewTail(w, n);
      ViewUnique(v[1..], w[1..], n);
      assert v == [v[0]] + v[1..] && w == [w[0]] + w[1..];
    }
  }

  /** The filtered view is THE order-preserving subsequence of matching
      entries: any view showing exactly the matching entries equals it. */
  lemma FilteredViewIsMatchingSubsequence(items: seq<Item>, search: string, v: seq<nat>)
    requires IsView(v, |items|)
    requires forall i :: 0 <= i < |items| ==> (i in v <==> Matches(items[i], search))
    ensures v == FilteredView(items, search)
  {
    var f := FilteredView(items, search);
    forall i ensures i in v <==> i in f {
      if i in v { assert 0 <= i < |items|; }
      if i in f { assert 0 <= i < |items|; }
    }
    ViewUnique(v, f, |items|);
  }

  /** The filter alone already shows the whole list for an empty search
      text: the emptiness test in front of it changes nothing. */
  lemma EmptySearchShowsAll(items: seq<Item>)
    ensures FilterPrefix(items, "", |items|) == AllPositions(|items|)
    ensures FilteredView(items, "") == AllPositions(|items|)
  {
    EmptySearchMatchesAll(items);
    FilteredViewIsMatchingSubsequence(items, "", FilterPrefix(items, "", |items|));
    FilteredViewIsMatchingSubsequence(items, "", AllPositions(|items|));
  }

  /** Filtering ignores the case of the search text. */
  lemma FilterIgnoresSearchCase(items: seq<Item>, search: string)
    ensures FilteredView(items, Lower(search)) == FilteredView(items, search)
  {
    LowerIdempotent(search);
    var v := FilteredView(items, Lower(search));
    assert forall i :: 0 <= i < |items| ==> (Matches(items[i], Lower(search)) <==> Matches(items[i], search));
    FilteredViewIsMatchingSubsequence(items, search, v);
  }

  /** Matching ignores the case of the name: an entry matches the same
      search texts as the entry with its name lower-cased. */
  lemma MatchesIgnoresNameCase(item: Item, search: string)
    ensures Matches(item.(name := Lower(item.name)), search) == Matches(item, search)
  {
    LowerIdempotent(item.name);
  }

  /** `currentList.findIndex(c => c.selected)`: the first position of the
      view whose entry is flagged, or -1. */
  function FirstSelected(items: seq<Item>, view: seq<nat>): (p: int)
    requires InRange(view, |items|)
    ensures -1 <= p < |view|
    ensures p >= 0 ==> items[view[p]].selected
    ensures forall q :: 0 <= q < (if p == -1 then |view| else p) ==> !items[view[q]].selected
  {
    if view == [] then -1
    else if items[view[0]].selected then 0
    else
      var r := FirstSelected(items, view[1..]);
      if r == -1 then -1 else r + 1
  }

  /** No two entries of the view are flagged. */
  predicate AtMostOne(items: seq<Item>, view: seq<nat>)
    requires InRange(view, |items|)
  {
    forall p, q ::
      (0 <= p < |view| && 0 <= q < |view| &&
       items[view[p]].selected && items[view[q]].selected) ==> p == q
  }

  /** `list[i].selected = b` */
  function SetFlag(items: seq<Item>, i: nat, b: bool): seq<Item>
    requires i < |items|
  {
    items[i := items[i].(selected := b)]
  }

  /** What an arrow key does to a list: its new entries and the scroll
      offset it asks for, if any. */
  datatype Moved = Moved(items: seq<Item>, scroll: Option<int>)

  /** The flag writes and scroll of UP (`up`) or DOWN on the view, branch by
      branch as the key handler performs them. */
  function Arrow(items: seq<Item>, view: seq<nat>, up: bool): (m: Moved)
    requires InRange(view, |items|)
    ensures |m.items| == |items|
  {
    if |view| == 0 then Moved(items, None)
    else
      var last := |view| - 1;
      var idx := FirstSelected(items, view);
      if up then
        if idx == -1 then
          Moved(SetFlag(items, view[last], true), Some(last * ScrollUnit))
        else if idx == 0 then
          Moved(SetFlag(SetFlag(items, view[0], false), view[last], true), Some(last * ScrollUnit))
        else
          Moved(SetFlag(SetFlag(items, view[idx], false), view[idx - 1], true), Some((idx - 1) * ScrollUnit))
      else
        if idx == -1 then
          Moved(SetFlag(items, view[0], true), None)
        else if idx == last then
          Moved(SetFlag(SetFlag(items, view[0], true), view[last], false), Some(0))
        else
          Moved(SetFlag(SetFlag(items, view[idx], false), view[idx + 1], true), Some((idx + 1) * ScrollUnit))
  }

  /** The arrow-key handler's flag writes, in the order the handler performs
      them, on a copy of the list: UP (`up`) or DOWN. It follows `Arrow`
      write for write; `ArrowKey` stores its result in the component's list. */
  method MoveFlag(items: seq<Item>, view: seq<nat>, up: bool) returns (r: seq<Item>, scroll: Option<int>)
    requires InRange(view, |items|)
    ensures Moved(r, scroll) == Arrow(items, view, up)
  {
    r, scroll := items, None;
    if |view| == 0 {
      return;
    }
    var lastIndex := |view| - 1;
    var idx := FirstSelected(items, view);
    if up {
      if idx == -1 {
        r := SetFlag(r, view[lastIndex], true);
        scroll := Some(lastIndex * ScrollUnit);
      } else if idx == 0 {
        r := SetFlag(r, view[0], false);
        r := SetFlag(r, view[lastIndex], true);
        scroll := Some(lastIndex * ScrollUnit);
      } else {
        r := SetFlag(r, view[idx], false);
        r := SetFlag(r, view[idx - 1], true);
        scroll := Some((idx - 1) * ScrollUnit);
      }
    } else {
      if idx == -1 {
        r := SetFlag(r, view[0], true);
      } else if idx == lastIndex {
        r := SetFlag(r, view[0], true);
        r := SetFlag(r, view[lastIndex], false);
        scroll := Some(0);
      } else {
        r := SetFlag(r, view[idx], false);
        r := SetFlag(r, view[idx + 1], true);
        scroll := Some((idx + 1) * ScrollUnit);
      }
    }
  }

  /** Where an arrow key moves the selection on a view of `n` entries whose
      first flagged position is `idx` (-1 for none): UP goes to the previous
      entry and wraps from the first (or from nothing) to the last; DOWN goes
      to the next entry and wraps from the last (or from nothing) to the first. */
  function ArrowTarget(up: bool, n: nat, idx: int): (t: nat)
    requires 0 < n && -1 <= idx < n
    ensures t < n
  {
    if up then (if idx <= 0 then n - 1 else idx - 1)
    else if idx == -1 || idx == n - 1 then 0
    else idx + 1
  }

  /** Distinct positions of a view name distinct entries. */
  lemma ViewDistinct(view: seq<nat>, n: nat, p: int, q: int)
    requires IsView(view, n) && 0 <= p < |view| && 0 <= q < |view| && p != q
    ensures view[p] != view[q]
  {
    if p < q { assert view[p] < view[q]; } else { assert view[q] < view[p]; }
  }

  /** An arrow key flags its target, unflags the entry that was flagged
      first, and leaves every other flag of the view as it was: on a view of
      two or more entries, and on a one-entry view for UP, or for DOWN with
      nothing flagged (DOWN on a lone flagged entry is `LoneEntryArrows`). */
  lemma ArrowFlags(items: seq<Item>, view: seq<nat>, up: bool)
    requires IsView(view, |items|)
    requires |view| >= 1
    requires |view| >= 2 || up || FirstSelected(items, view) == -1
    ensures var m := Arrow(items, view, up);
            var idx := FirstSelected(items, view);
            var t := ArrowTarget(up, |view|, idx);
            forall p :: 0 <= p < |view| ==>
              (m.items[view[p]].selected <==> p == t || (items[view[p]].selected && p != idx))
  {
    var m := Arrow(items, view, up);
    var idx := FirstSelected(items, view);
    var t := ArrowTarget(up, |view|, idx);
    forall p | 0 <= p < |view|
      ensures m.items[view[p]].selected <==> p == t || (items[view[p]].selected && p != idx)
    {
      if idx != -1 && p != idx { ViewDistinct(view, |items|, p, idx); }
      if p != t { ViewDistinct(view, |items|, p, t); }
      if idx != -1 && t != idx { ViewDistinct(view, |items|, t, idx); }
      if up && idx == 0 && |view| >= 2 { ViewDistinct(view, |items|, 0, |view| - 1); }
      if !up && idx == |view| - 1 && |view| >= 2 { ViewDistinct(view, |items|, 0, |view| - 1); }
    }
  }

  /** On a view of two or more entries with at most one flagged entry, an
      arrow key leaves exactly one entry flagged: its target. */
  lemma ArrowKeepsSingleSelection(items: seq<Item>, view: seq<nat>, up: bool)
    requires IsView(view, |items|)
    requires |view| >= 2
    requires AtMostOne(items, view)
    ensures var m := Arrow(items, view, up);
            var t := ArrowTarget(up, |view|, FirstSelected(items, view));
            && AtMostOne(m.items, view)
            && forall p :: 0 <= p < |view| ==> (m.items[view[p]].selected <==> p == t)
  {
    ArrowFlags(items, view, up);
    var m := Arrow(items, view, up);
    var idx := FirstSelected(items, view);
    var t := ArrowTarget(up, |view|, idx);
    forall p | 0 <= p < |view| && items[view[p]].selected
      ensures p == idx
    {
      assert idx != -1;
    }
  }

  /** An arrow key on a non-empty view scrolls to its target, except that
      DOWN with nothing flagged does not scroll. */
  lemma ArrowScroll(items: seq<Item>, view: seq<nat>, up: bool)
    requires InRange(view, |items|)
    requires |view| > 0
    ensures var idx := FirstSelected(items, view);
            Arrow(items, view, up).scroll ==
              if !up && idx == -1 then None
              else Some(ArrowTarget(up, |view|, idx) * ScrollUnit)
  {
  }

  /** An arrow key changes nothing but flags, and only flags of entries in
      the view; on an empty view it changes nothing and does not scroll. */
  lemma ArrowTouchesOnlyView(items: seq<Item>, view: seq<nat>, up: bool)
    requires InRange(view, |items|)
    ensures var m := Arrow(items, view, up);
            && (forall i :: 0 <= i < |items| ==>
                  m.items[i].name == items[i].name && m.items[i].idx == items[i].idx)
            && (forall i :: 0 <= i < |items| && i !in view ==> m.items[i] == items[i])
            && (view == [] ==> m == Moved(items, None))
  {
  }

  /** On a view of one flagged entry, DOWN sets and then clears the same
      flag, so nothing is left flagged, while UP keeps it flagged. */
  lemma LoneEntryArrows(items: seq<Item>, view: seq<nat>)
    requires InRange(view, |items|)
    requires |view| == 1 && items[view[0]].selected
    ensures !Arrow(items, view, false).items[view[0]].selected
    ensures Arrow(items, view, true).items[view[0]].selected
  {
  }

  /** Mouse-over flags the hovered entry without clearing the others: on
      any view with a flagged entry, hovering over another entry of it
      leaves two entries flagged. */
  lemma HoverCanFlagTwo(items: seq<Item>, view: seq<nat>, p: int, q: int)
    requires IsView(view, |items|)
    requires 0 <= p < |view| && 0 <= q < |view| && p != q
    requires items[view[p]].selected
    ensures !AtMostOne(SetFlag(items, view[q], true), view)
  {
    ViewDistinct(view, |items|, p, q);
    var after := SetFlag(items, view[q], true);
    assert after[view[p]].selected && after[view[q]].selected;
  }

  /** The list after `initSelectedCommand(view)`: every entry of the view
      unflagged, every other entry untouched. */
  function Unflagged(items: seq<Item>, view: seq<nat>): (r: seq<Item>)
    ensures |r| == |items|
    ensures forall p :: 0 <= p < |view| && view[p] < |items| ==> !r[view[p]].selected
    ensures forall i :: 0 <= i < |items| ==>
              r[i].name == items[i].name && r[i].idx == items[i].idx
    ensures forall i :: 0 <= i < |items| && i !in view ==> r[i] == items[i]
  {
    seq(|items|, i requires 0 <= i < |items| => if i in view then items[i].(selected := false) else items[i])
  }

  /** Clearing the flags of a view a second time changes nothing. */
  lemma UnflaggedIdempotent(items: seq<Item>, view: seq<nat>)
    ensures Unflagged(Unflagged(items, view), view) == Unflagged(items, view)
  {
  }

  /** `initSelectedCommand(view)`: walks the view clearing each entry's flag. */
  method ClearSelected(items: seq<Item>, view: seq<nat>) returns (r: seq<Item>)
    requires InRange(view, |items|)
    ensures r == Unflagged(items, view)
  {
    r := items;
    var k := 0;
    while k < |view|
      invariant 0 <= k <= |view|
      invariant r == Unflagged(items, view[..k])
    {
      assert forall i :: i in view[..k + 1] <==> i in view[..k] || i == view[k];
      r := SetFlag(r, view[k], false);
      k := k + 1;
    }
    assert view[..|view|] == view;
  }
}
