/**
 * The driver object (`sixleds` / `fiveleds`): the pages of each line, the
 * schedules, the default run page, and the serial link, reduced to the
 * frames written (`sent`) and the replies the sign will give (`replies`).
 * A save of the configuration is counted in `saves`.
 *
 * Python dictionaries keep insertion order; the model keeps each
 * dictionary as a map plus the order its keys were added in.
 */
module Device {
  import opened Wrappers
  import opened Variant
  import opened Dates
  import Hex
  import Checksum
  import Transport
  import StringOrder
  import Pages
  import Schedules
  import Graphic
  import Text

  /** One thing `pushchanges` may send: a page of a line, or a schedule. */
  datatype Item = PageItem(line: string, id: string) | SchedItem(id: string)

  predicate Unique<T(==)>(s: seq<T>)
  {
    forall i, j :: 0 <= i < j < |s| ==> s[i] != s[j]
  }

  /** The pages of line `l`, in the order of `ids`. */
  function LineItems(l: string, ids: seq<string>): (r: seq<Item>)
    ensures |r| == |ids|
    ensures forall k :: 0 <= k < |ids| ==> r[k] == PageItem(l, ids[k])
  {
    seq(|ids|, k requires 0 <= k < |ids| => PageItem(l, ids[k]))
  }

  function SchedItems(order: seq<string>): (r: seq<Item>)
    ensures |r| == |order|
    ensures forall k :: 0 <= k < |order| ==> r[k] == SchedItem(order[k])
  {
    seq(|order|, k requires 0 <= k < |order| => SchedItem(order[k]))
  }

  predicate OrderOk(order: seq<string>, pageOrder: map<string, seq<string>>)
  {
    forall l :: l in order ==> l in pageOrder
  }

  /** The pages of the first `i` lines of `order`, each line's pages by id:
      `for linenum, line in self.lines.items(): for pagenum, page in sorted(line.items())`. */
  function PagesOfFirst(order: seq<string>, pageOrder: map<string, seq<string>>, i: nat): seq<Item>
    requires OrderOk(order, pageOrder) && i <= |order|
    decreases i
  {
    if i == 0 then []
    else PagesOfFirst(order, pageOrder, i - 1) + LineItems(order[i - 1], StringOrder.Sort(pageOrder[order[i - 1]]))
  }

  /** The pages of every line, in the order `pushchanges` walks them. */
  function PageItems(order: seq<string>, pageOrder: map<string, seq<string>>): seq<Item>
    requires OrderOk(order, pageOrder)
  {
    PagesOfFirst(order, pageOrder, |order|)
  }

  /** The pages of line `l` listed by `ids` are those of `l` whose id is in `ids`. */
  lemma LineItemsMembers(l: string, ids: seq<string>, it: Item)
    ensures it in LineItems(l, ids) <==> it.PageItem? && it.line == l && it.id in ids
  {
    if it.PageItem? && it.line == l && it.id in ids {
      var k :| 0 <= k < |ids| && ids[k] == it.id;
      assert LineItems(l, ids)[k] == it;
    }
  }

  /** Sorting keeps exactly the ids it was given. */
  lemma SortMembers(s: seq<string>, x: string)
    ensures x in StringOrder.Sort(s) <==> x in s
  {
    StringOrder.SortPermutes(s);
    assert x in StringOrder.Sort(s) <==> x in multiset(StringOrder.Sort(s));
  }

  lemma {:induction false} PagesOfFirstMembers(order: seq<string>, pageOrder: map<string, seq<string>>, i: nat, it: Item)
    requires OrderOk(order, pageOrder) && i <= |order|
    ensures it in PagesOfFirst(order, pageOrder, i) <==>
              it.PageItem? && it.line in order[..i] && it.id in pageOrder[it.line]
    decreases i
  {
    if i > 0 {
      PagesOfFirstMembers(order, pageOrder, i - 1, it);
      var l := order[i - 1];
      assert order[..i] == order[..i - 1] + [l];
      LineItemsMembers(l, StringOrder.Sort(pageOrder[l]), it);
      SortMembers(pageOrder[l], it.id);
    }
  }

  /** The page items are exactly the pages of the listed lines. */
  lemma PageItemsMembers(order: seq<string>, pageOrder: map<string, seq<string>>, it: Item)
    requires OrderOk(order, pageOrder)
    ensures it in PageItems(order, pageOrder) <==> it.PageItem? && it.line in order && it.id in pageOrder[it.line]
  {
    PagesOfFirstMembers(order, pageOrder, |order|, it);
    assert order[..|order|] == order;
  }

  /** Two duplicate-free sequences with nothing in common join into one. */
  lemma UniqueAppend<T>(a: seq<T>, b: seq<T>)
    requires Unique(a) && Unique(b)
    requires forall x :: x in a ==> x !in b
    ensures Unique(a + b)
  {
    forall i, j | 0 <= i < j < |a + b|
      ensures (a + b)[i] != (a + b)[j]
    {
      if i < |a| && j >= |a| {
        assert (a + b)[i] in a && (a + b)[j] == b[j - |a|];
      } else if i >= |a| {
        assert (a + b)[i] == b[i - |a|] && (a + b)[j] == b[j - |a|];
      }
    }
  }

  lemma {:induction false} PagesOfFirstUnique(order: seq<string>, pageOrder: map<string, seq<string>>, i: nat)
    requires OrderOk(order, pageOrder) && StringOrder.Distinct(order) && i <= |order|
    requires forall l :: l in order ==> StringOrder.Distinct(pageOrder[l])
    ensures Unique(PagesOfFirst(order, pageOrder, i))
    decreases i
  {
    if i > 0 {
      PagesOfFirstUnique(order, pageOrder, i - 1);
      var l := order[i - 1];
      var ids := StringOrder.Sort(pageOrder[l]);
      StringOrder.SortPermutes(pageOrder[l]);
      StringOrder.DistinctPermutation(pageOrder[l], ids);
      var a, b := PagesOfFirst(order, pageOrder, i - 1), LineItems(l, ids);
      assert Unique(b) by {
        forall x, y | 0 <= x < y < |b|
          ensures b[x] != b[y]
        {
          assert b[x].id == ids[x] && b[y].id == ids[y];
        }
      }
      forall x | x in a
        ensures x !in b
      {
        PagesOfFirstMembers(order, pageOrder, i - 1, x);
        LineItemsMembers(l, ids, x);
      }
      UniqueAppend(a, b);
    }
  }

  /** Page items are listed once each, when lines and the pages of each line are. */
  lemma PageItemsUnique(order: seq<string>, pageOrder: map<string, seq<string>>)
    requires OrderOk(order, pageOrder) && StringOrder.Distinct(order)
    requires forall l :: l in order ==> StringOrder.Distinct(pageOrder[l])
    ensures Unique(PageItems(order, pageOrder))
  {
    PagesOfFirstUnique(order, pageOrder, |order|);
  }

  /** The pages of fewer lines come first. */
  lemma {:induction false} PagesOfFirstPrefix(order: seq<string>, pageOrder: map<string, seq<string>>, i: nat, m: nat)
    requires OrderOk(order, pageOrder) && i <= m <= |order|
    ensures PagesOfFirst(order, pageOrder, i) <= PagesOfFirst(order, pageOrder, m)
    decreases m - i
  {
    if i < m {
      PagesOfFirstPrefix(order, pageOrder, i, m - 1);
      var a, b, c := PagesOfFirst(order, pageOrder, i), PagesOfFirst(order, pageOrder, m - 1), PagesOfFirst(order, pageOrder, m);
      assert c == b + LineItems(order[m - 1], StringOrder.Sort(pageOrder[order[m - 1]]));
      forall k | 0 <= k < |a|
        ensures a[k] == c[k]
      {
        assert a[k] == b[k];
      }
    }
  }

  /** The pages of line `i` sit in the walk right after those of the lines before it. */
  lemma LineSlots(order: seq<string>, pageOrder: map<string, seq<string>>, i: nat, l: string, ids: seq<string>, base: nat)
    requires OrderOk(order, pageOrder) && i < |order| && l == order[i]
    requires base == |PagesOfFirst(order, pageOrder, i)| && ids == StringOrder.Sort(pageOrder[l])
    ensures |PagesOfFirst(order, pageOrder, i + 1)| == base + |ids| <= |PageItems(order, pageOrder)|
    ensures forall j :: 0 <= j < |ids| ==> PageItems(order, pageOrder)[base + j] == PageItem(l, ids[j])
  {
    PagesOfFirstPrefix(order, pageOrder, i + 1, |order|);
    var upto := PagesOfFirst(order, pageOrder, i + 1);
    forall j | 0 <= j < |ids|
      ensures PageItems(order, pageOrder)[base + j] == PageItem(l, ids[j])
    {
      assert upto[base + j] == LineItems(l, ids)[j];
    }
  }

  /** A walk `ts` whose page slots follow the page items holds the pages of
      line `i`, by id, right after those of the lines before it. */
  lemma LineAligned(lines: map<string, map<string, Pages.Page>>, order: seq<string>,
                    pageOrder: map<string, seq<string>>, ts: seq<Target>, i: nat, l: string, ids: seq<string>, base: nat)
    requires OrderOk(order, pageOrder) && i < |order| && l == order[i] && l in lines && |PageItems(order, pageOrder)| <= |ts|
    requires base == |PagesOfFirst(order, pageOrder, i)| && ids == StringOrder.Sort(pageOrder[l])
    requires forall n {:trigger PageItems(order, pageOrder)[n]} :: 0 <= n < |PageItems(order, pageOrder)| ==>
      var it := PageItems(order, pageOrder)[n];
      it.PageItem? && it.line in lines && it.id in lines[it.line] && ts[n] == PageTarget(it.line, it.id, lines[it.line][it.id])
    ensures |PagesOfFirst(order, pageOrder, i + 1)| == base + |ids| <= |PageItems(order, pageOrder)|
    ensures forall j :: 0 <= j < |ids| ==> ids[j] in lines[l] && ts[base + j] == PageTarget(l, ids[j], lines[l][ids[j]])
  {
    LineSlots(order, pageOrder, i, l, ids, base);
    forall j | 0 <= j < |ids|
      ensures ids[j] in lines[l] && ts[base + j] == PageTarget(l, ids[j], lines[l][ids[j]])
    {
      assert PageItems(order, pageOrder)[base + j] == PageItem(l, ids[j]);
    }
  }

  lemma {:induction false} PagesOfFirstOrderFree(order: seq<string>, po: map<string, seq<string>>,
                                                 po': map<string, seq<string>>, i: nat)
    requires OrderOk(order, po) && OrderOk(order, po') && i <= |order|
    requires forall l :: l in order ==> StringOrder.Distinct(po[l]) && multiset(po[l]) == multiset(po'[l])
    ensures PagesOfFirst(order, po, i) == PagesOfFirst(order, po', i)
    decreases i
  {
    if i > 0 {
      PagesOfFirstOrderFree(order, po, po', i - 1);
      StringOrder.SortOrderFree(po[order[i - 1]], po'[order[i - 1]]);
    }
  }

  /** `pushchanges` does not depend on the order pages were added to a line
      in, only on which pages each line has. */
  lemma PageItemsOrderFree(order: seq<string>, po: map<string, seq<string>>, po': map<string, seq<string>>)
    requires OrderOk(order, po) && OrderOk(order, po')
    requires forall l :: l in order ==> StringOrder.Distinct(po[l]) && multiset(po[l]) == multiset(po'[l])
    ensures PageItems(order, po) == PageItems(order, po')
  {
    PagesOfFirstOrderFree(order, po, po', |order|);
  }

  /** The driver's lines: `lineOrder` lists each line once, `pageOrder`
      lists the pages of each line once, every page belongs to the board
      and to `repr`, and `home` records the one slot each page sits in
      (so no page object sits in two slots). */
  ghost predicate LinesShape(v: Variant, lines: map<string, map<string, Pages.Page>>, lineOrder: seq<string>,
                             pageOrder: map<string, seq<string>>, repr: set<Pages.Page>,
                             home: map<Pages.Page, (string, string)>)
  {
    StringOrder.Distinct(lineOrder) && (forall l :: l in lines <==> l in lineOrder)
    && (forall l :: l in lines <==> l in pageOrder)
    && (forall l :: l in lines ==>
          StringOrder.Distinct(pageOrder[l]) && forall p :: p in lines[l] <==> p in pageOrder[l])
    && (forall l, p :: l in lines && p in lines[l] ==> lines[l][p] in repr && lines[l][p].variant == v)
    && (forall l, p :: l in lines && p in lines[l] ==> lines[l][p] in home && home[lines[l][p]] == (l, p))
  }

  /** Appending a fresh page to a line keeps the shape. */
  lemma AddKeepsShape(v: Variant, lines: map<string, map<string, Pages.Page>>, lineOrder: seq<string>,
                      pageOrder: map<string, seq<string>>, repr: set<Pages.Page>,
                      home: map<Pages.Page, (string, string)>, line: string, page: string, o: Pages.Page)
    requires LinesShape(v, lines, lineOrder, pageOrder, repr, home)
    requires line in lines && page !in lines[line] && o !in repr && o.variant == v
    ensures LinesShape(v, lines[line := lines[line][page := o]], lineOrder,
                       pageOrder[line := pageOrder[line] + [page]], repr + {o}, home[o := (line, page)])
  {
    var lines', pageOrder' := lines[line := lines[line][page := o]], pageOrder[line := pageOrder[line] + [page]];
    var ids := pageOrder'[line];
    assert page !in pageOrder[line];
    assert StringOrder.Distinct(ids) by {
      forall i, j | 0 <= i < j < |ids|
        ensures ids[i] != ids[j]
      {
        if j == |ids| - 1 {
          assert ids[i] in pageOrder[line];
        } else {
          assert ids[i] == pageOrder[line][i] && ids[j] == pageOrder[line][j];
        }
      }
    }
    forall l, p | l in lines' && p in lines'[l]
      ensures lines'[l][p] in repr + {o} && lines'[l][p].variant == v
      ensures lines'[l][p] != o ==> l in lines && p in lines[l] && lines'[l][p] == lines[l][p]
    {
    }
  }

  /** The driver's schedules: `schedOrder` lists each once, every one is in
      `repr`, and `home` records the one slot each sits in. */
  ghost predicate SchedsShape(schedules: map<string, Schedules.Schedule>, schedOrder: seq<string>,
                              repr: set<Schedules.Schedule>, home: map<Schedules.Schedule, string>)
  {
    StringOrder.Distinct(schedOrder) && (forall s :: s in schedules <==> s in schedOrder)
    && (forall s :: s in schedules ==> schedules[s] in repr && schedules[s] in home && home[schedules[s]] == s)
  }

  /** Adding a fresh schedule at the end keeps the shape. */
  lemma AddKeepsSchedShape(schedules: map<string, Schedules.Schedule>, schedOrder: seq<string>,
                           repr: set<Schedules.Schedule>, home: map<Schedules.Schedule, string>,
                           id: string, o: Schedules.Schedule)
    requires SchedsShape(schedules, schedOrder, repr, home) && id !in schedules && o !in repr
    ensures SchedsShape(schedules[id := o], schedOrder + [id], repr + {o}, home[o := id])
  {
    var ids := schedOrder + [id];
    assert id !in schedOrder;
    forall i, j | 0 <= i < j < |ids|
      ensures ids[i] != ids[j]
    {
      if j == |ids| - 1 {
        assert ids[i] in schedOrder;
      } else {
        assert ids[i] == schedOrder[i] && ids[j] == schedOrder[j];
      }
    }
  }

  /** The bodies a push writes, given each item's dirty flag and body:
      those of the dirty items, or of all items on reset. */
  function Pick(dirty: seq<bool>, bodies: seq<string>, reset: bool): (r: seq<string>)
    requires |dirty| == |bodies|
    ensures |r| <= |dirty|
    decreases |dirty|
  {
    if dirty == [] then []
    else
      var n := |dirty| - 1;
      Pick(dirty[..n], bodies[..n], reset) + (if dirty[n] || reset then [bodies[n]] else [])
  }

  /** Taking one more item adds its body when it is dirty, or on reset. */
  lemma PickStep(dirty: seq<bool>, bodies: seq<string>, reset: bool, k: nat)
    requires |dirty| == |bodies| && k < |dirty|
    ensures Pick(dirty[..k + 1], bodies[..k + 1], reset)
            == Pick(dirty[..k], bodies[..k], reset) + (if dirty[k] || reset then [bodies[k]] else [])
  {
    assert dirty[..k + 1][..k] == dirty[..k] && bodies[..k + 1][..k] == bodies[..k];
  }

  /** The bodies picked among the first `k` items. */
  function Picked(dirty: seq<bool>, bodies: seq<string>, reset: bool, k: nat): seq<string>
    requires k <= |dirty| == |bodies|
    decreases k
  {
    if k == 0 then [] else Picked(dirty, bodies, reset, k - 1) + (if dirty[k - 1] || reset then [bodies[k - 1]] else [])
  }

  /** Picking among the first `k` items is picking from the first `k` items. */
  lemma {:induction false} PickedIsPick(dirty: seq<bool>, bodies: seq<string>, reset: bool, k: nat)
    requires k <= |dirty| == |bodies|
    ensures Picked(dirty, bodies, reset, k) == Pick(dirty[..k], bodies[..k], reset)
    decreases k
  {
    if k > 0 {
      PickedIsPick(dirty, bodies, reset, k - 1);
      PickStep(dirty, bodies, reset, k - 1);
    }
  }

  /** Without reset, nothing is picked when no item is dirty. */
  lemma {:induction false} PickNone(dirty: seq<bool>, bodies: seq<string>)
    requires |dirty| == |bodies| && forall i :: 0 <= i < |dirty| ==> !dirty[i]
    ensures Pick(dirty, bodies, false) == []
    decreases |dirty|
  {
    if dirty != [] {
      var n := |dirty| - 1;
      PickNone(dirty[..n], bodies[..n]);
    }
  }

  /** On reset, every body is picked, in order. */
  lemma {:induction false} PickAll(dirty: seq<bool>, bodies: seq<string>)
    requires |dirty| == |bodies|
    ensures Pick(dirty, bodies, true) == bodies
    decreases |dirty|
  {
    if dirty != [] {
      var n := |dirty| - 1;
      PickAll(dirty[..n], bodies[..n]);
      assert bodies[..n] + [bodies[n]] == bodies;
    }
  }

  /** Without reset, exactly the dirty bodies are picked: each picked body
      is the body of a dirty item, and their number is that of the dirty items. */
  lemma {:induction false} PickDirty(dirty: seq<bool>, bodies: seq<string>)
    requires |dirty| == |bodies|
    ensures forall x :: x in Pick(dirty, bodies, false) ==> exists i :: 0 <= i < |dirty| && dirty[i] && bodies[i] == x
    ensures |Pick(dirty, bodies, false)| == |set i | 0 <= i < |dirty| && dirty[i]|
    decreases |dirty|
  {
    if dirty != [] {
      var n := |dirty| - 1;
      PickDirty(dirty[..n], bodies[..n]);
      var front := set i | 0 <= i < n && dirty[..n][i];
      var all := set i | 0 <= i < |dirty| && dirty[i];
      assert all == front + (if dirty[n] then {n} else {});
      forall x | x in Pick(dirty, bodies, false)
        ensures exists i :: 0 <= i < |dirty| && dirty[i] && bodies[i] == x
      {
        if x in Pick(dirty[..n], bodies[..n], false) {
          var i :| 0 <= i < n && dirty[..n][i] && bodies[..n][i] == x;
          assert dirty[i] && bodies[i] == x;
        } else {
          assert dirty[n] && bodies[n] == x;
        }
      }
    }
  }

  /** How far the writes of a push have got after `k` items of its walk,
      from `s1` and `r1` (after the lead-in): the picked bodies among the
      first `k` are written, one reply read for each, and `changed`
      counts the acknowledged ones. */
  ghost predicate Logged(device: nat, dirty: seq<bool>, bodies: seq<string>, reset: bool, k: nat,
                         s1: seq<string>, r1: seq<string>, changes: nat, changed: nat,
                         sent: seq<string>, replies: seq<string>)
  {
    k <= |dirty| == |bodies|
    && changes == |Picked(dirty, bodies, reset, k)|
    && sent == s1 + Frames(device, Picked(dirty, bodies, reset, k))
    && replies == Transport.Consume(device, r1, changes) && changed == Transport.Acks(device, r1, changes)
  }

  /** One more item: written and counted when it is dirty or on reset, passed over otherwise. */
  lemma PushStep(device: nat, dirty: seq<bool>, bodies: seq<string>, reset: bool, k: nat,
                 s1: seq<string>, r1: seq<string>, changes: nat, changed: nat, counted: bool, ok: bool,
                 sent: seq<string>, sent': seq<string>, replies: seq<string>, replies': seq<string>)
    requires Logged(device, dirty, bodies, reset, k, s1, r1, changes, changed, sent, replies)
    requires k < |dirty| && counted == (dirty[k] || reset)
    requires counted ==> sent' == sent + [Checksum.Frame(device, bodies[k])]
                         && Transport.Respond(device, replies) == Transport.Answer(ok, replies')
    requires !counted ==> sent' == sent && replies' == replies
    ensures Logged(device, dirty, bodies, reset, k + 1, s1, r1,
                   if counted then changes + 1 else changes, if counted && ok then changed + 1 else changed,
                   sent', replies')
  {
    var now := if counted then [bodies[k]] else [];
    FramesAppend(device, Picked(dirty, bodies, reset, k), now);
  }

  /** Nothing of the walk is written yet once the lead-in is. */
  lemma LoggedStart(device: nat, dirty: seq<bool>, bodies: seq<string>, reset: bool, s1: seq<string>, r1: seq<string>)
    requires |dirty| == |bodies|
    ensures Logged(device, dirty, bodies, reset, 0, s1, r1, 0, 0, s1, r1)
  {
    assert s1 + Frames(device, []) == s1;
  }

  /** After the whole walk and the trail, the lead-in, the picked bodies and
      the trail are written, and one reply was read for each. */
  lemma LoggedEnd(device: nat, lead: seq<string>, trail: seq<string>, dirty: seq<bool>, bodies: seq<string>,
                  reset: bool, s0: seq<string>, r0: seq<string>, s1: seq<string>, r1: seq<string>,
                  changes: nat, changed: nat, s2: seq<string>, r2: seq<string>, sent: seq<string>, replies: seq<string>)
    requires s1 == s0 + Frames(device, lead) && r1 == Transport.Consume(device, r0, |lead|)
    requires Logged(device, dirty, bodies, reset, |dirty|, s1, r1, changes, changed, s2, r2)
    requires sent == s2 + Frames(device, trail) && replies == Transport.Consume(device, r2, |trail|)
    ensures sent == s0 + Frames(device, lead + Pick(dirty, bodies, reset) + trail)
    ensures replies == Transport.Consume(device, r0, |lead + Pick(dirty, bodies, reset) + trail|)
    ensures changed == Transport.Acks(device, r1, |Pick(dirty, bodies, reset)|)
  {
    PickedIsPick(dirty, bodies, reset, |dirty|);
    assert dirty[..|dirty|] == dirty && bodies[..|dirty|] == bodies;
    var picked := Pick(dirty, bodies, reset);
    SentEnd(device, lead, picked, trail, s0, s2, sent);
    RepliesEnd(device, r0, |lead|, |picked|, |trail|, r2, replies);
  }

  lemma SentEnd(device: nat, lead: seq<string>, picked: seq<string>, trail: seq<string>, s0: seq<string>,
                s2: seq<string>, sent: seq<string>)
    requires s2 == s0 + Frames(device, lead) + Frames(device, picked) && sent == s2 + Frames(device, trail)
    ensures sent == s0 + Frames(device, lead + picked + trail)
  {
    FramesAppend(device, lead, picked);
    FramesAppend(device, lead + picked, trail);
  }

  lemma RepliesEnd(device: nat, r0: seq<string>, a: nat, b: nat, c: nat, r2: seq<string>, replies: seq<string>)
    requires r2 == Transport.Consume(device, Transport.Consume(device, r0, a), b)
    requires replies == Transport.Consume(device, r2, c)
    ensures replies == Transport.Consume(device, r0, a + b + c)
  {
    Transport.ConsumeAdd(device, r0, a, b);
    Transport.ConsumeAdd(device, r0, a + b, c);
  }

  /** The first `|lead|` commands of a push: `<D*>` on reset, then `<BE>` on the advanced board. */
  function Lead(v: Variant, reset: bool): seq<string>
  {
    (if reset then ["<D*>"] else []) + (if Brackets(v) then ["<BE>"] else [])
  }

  /** The last command of a push: `<BF>` on the advanced board. */
  function Trail(v: Variant): seq<string>
  {
    if Brackets(v) then ["<BF>"] else []
  }

  /** The frames of a sequence of bodies. */
  function Frames(device: nat, bodies: seq<string>): (f: seq<string>)
    ensures |f| == |bodies|
    ensures forall i {:trigger f[i]} :: 0 <= i < |bodies| ==> f[i] == Checksum.Frame(device, bodies[i])
  {
    seq(|bodies|, i requires 0 <= i < |bodies| => Checksum.Frame(device, bodies[i]))
  }

  lemma FramesAppend(device: nat, a: seq<string>, b: seq<string>)
    ensures Frames(device, a + b) == Frames(device, a) + Frames(device, b)
  {
  }

  /** On a one-byte address, each frame of byte-wide bodies reads back as
      that address and its own body, in order. */
  lemma FramesParse(device: nat, bodies: seq<string>)
    requires device < 256 && forall i :: 0 <= i < |bodies| ==> Checksum.Narrow(bodies[i], 255)
    ensures |Frames(device, bodies)| == |bodies|
    ensures forall i :: 0 <= i < |bodies| ==>
      Checksum.ParseFrame(Frames(device, bodies)[i]) == Some(Checksum.Wire(device, bodies[i]))
  {
    forall i | 0 <= i < |bodies|
      ensures Checksum.ParseFrame(Frames(device, bodies)[i]) == Some(Checksum.Wire(device, bodies[i]))
    {
      Checksum.FrameRoundTrip(device, bodies[i]);
    }
  }

  /** `x in s` on Python strings: `x` occurs in `s` (the empty string always does). */
  predicate InStr(x: string, s: string)
  {
    exists i, j :: 0 <= i <= j <= |s| && s[i..j] == x
  }

  /** The ids `programgraphic` accepts: substrings of the graphic letters and block digits. */
  predicate GraphicIdsOk(graphicid: string, blockid: string)
  {
    InStr(graphicid, "ABCDEFGHIJKLMNOP") && InStr(blockid, "12345678")
  }

  /** A piece of a string whose characters fit fits as well. */
  lemma InStrNarrow(x: string, s: string, limit: nat)
    requires InStr(x, s) && Checksum.Narrow(s, limit)
    ensures Checksum.Narrow(x, limit)
  {
    var i, j :| 0 <= i <= j <= |s| && s[i..j] == x;
    forall k | 0 <= k < |x|
      ensures Checksum.Code(x[k]) <= limit
    {
      assert x[k] == s[i + k];
    }
  }

  /** The `<G gid bid>` head of an accepted graphic fits a byte per character. */
  lemma GraphicHeadNarrow(graphicid: string, blockid: string)
    requires GraphicIdsOk(graphicid, blockid)
    ensures Checksum.Narrow("<G" + graphicid + blockid + ">", 255)
  {
    InStrNarrow(graphicid, "ABCDEFGHIJKLMNOP", 255);
    InStrNarrow(blockid, "12345678", 255);
    Checksum.NarrowConcat("<G", graphicid, 255);
    Checksum.NarrowConcat("<G" + graphicid, blockid, 255);
    Checksum.NarrowConcat("<G" + graphicid + blockid, ">", 255);
  }

  /** The graphic payload as characters: `packet += chr(d)`. */
  function CharsOf(data: seq<bv8>): (s: string)
    ensures |s| == |data|
    ensures Checksum.Narrow(s, 255)
  {
    seq(|data|, i requires 0 <= i < |data| => (data[i] as int) as char)
  }

  /** The fixed commands of a push fit either board's serial write. */
  lemma FixedNarrow(v: Variant)
    ensures Checksum.Narrow("<D*>", CharLimit(v)) && Checksum.Narrow("<BE>", CharLimit(v))
    ensures Checksum.Narrow("<BF>", CharLimit(v))
  {
  }

  /** A slot of the walk together with the object it holds. */
  datatype Target = PageTarget(line: string, id: string, page: Pages.Page)
                  | SchedTarget(id: string, sched: Schedules.Schedule)

  function PageOf(t: Target): set<Pages.Page>
  {
    if t.PageTarget? then {t.page} else {}
  }

  function SchedOf(t: Target): set<Schedules.Schedule>
  {
    if t.SchedTarget? then {t.sched} else {}
  }

  /** The object's `modified()` flag. */
  predicate Marked(t: Target)
    reads PageOf(t)`changed, SchedOf(t)`changed
  {
    match t
    case PageTarget(_, _, o) => o.changed
    case SchedTarget(_, o) => o.changed
  }

  /** The body `pushchanges` writes for a page: `<L line><P page>` and the page's packet. */
  function PageBody(l: string, p: string, fx: string, mx: string, wx: string, fy: string, mm: string, v: Variant): string
  {
    "<L" + l + "><P" + p + ">" + Pages.PacketOf(fx, mx, wx, fy, mm, v)
  }

  /** The body `pushchanges` writes for a schedule: `<T id>` and its packet
      when active, `<DT id>` (delete) when not. */
  function SchedBody(s: string, active: bool, st: Option<CalendarDate>, en: Option<CalendarDate>, pp: string): string
    requires active ==> st.Some? && en.Some?
  {
    if active then "<T" + s + ">" + Schedules.PacketOf(st.value, en.value, pp) else "<DT" + s + ">"
  }

  /** The pages in the slots of `ts`. */
  function PagesIn(ts: seq<Target>): set<Pages.Page>
  {
    set n | 0 <= n < |ts| && ts[n].PageTarget? :: ts[n].page
  }

  /** The schedules in the slots of `ts`. */
  function SchedsIn(ts: seq<Target>): set<Schedules.Schedule>
  {
    set n | 0 <= n < |ts| && ts[n].SchedTarget? :: ts[n].sched
  }

  /** Each page slot of `ts` that a push writes (flagged in `dirty`, or
      all on reset) holds a page whose body is the one in `bodies`. */
  ghost predicate PagesBodied(ts: seq<Target>, dirty: seq<bool>, bodies: seq<string>, reset: bool)
    reads PagesIn(ts)`FX, PagesIn(ts)`MX, PagesIn(ts)`WX, PagesIn(ts)`FY, PagesIn(ts)`MM
  {
    |ts| == |dirty| == |bodies|
    && forall n {:trigger ts[n]} :: 0 <= n < |ts| && ts[n].PageTarget? && (dirty[n] || reset) ==>
      var t := ts[n];
      PageBody(t.line, t.id, t.page.FX, t.page.MX, t.page.WX, t.page.FY, t.page.MM, t.page.variant) == bodies[n]
  }

  /** Each schedule slot of `ts` that a push writes is dated when active
      and has its body in `bodies`. */
  ghost predicate SchedsBodied(ts: seq<Target>, dirty: seq<bool>, bodies: seq<string>, reset: bool)
    reads SchedsIn(ts)`active, SchedsIn(ts)`st, SchedsIn(ts)`en, SchedsIn(ts)`PP
  {
    |ts| == |dirty| == |bodies|
    && forall n {:trigger ts[n]} :: 0 <= n < |ts| && ts[n].SchedTarget? && (dirty[n] || reset) ==>
      var o := ts[n].sched;
      (o.active ==> o.st.Some? && o.en.Some?) && SchedBody(ts[n].id, o.active, o.st, o.en, o.PP) == bodies[n]
  }

  /** The objects in slots `k` and after are marked as `dirty` says, those
      before `k` are not. */
  ghost predicate MarkedFrom(ts: seq<Target>, dirty: seq<bool>, k: nat)
    reads PagesIn(ts)`changed, SchedsIn(ts)`changed
  {
    |ts| == |dirty| && forall n {:trigger ts[n]} :: 0 <= n < |ts| ==> Marked(ts[n]) == (k <= n && dirty[n])
  }

  /** Every body a push writes fits within `limit`. */
  predicate NarrowBodies(dirty: seq<bool>, bodies: seq<string>, reset: bool, limit: nat)
  {
    |dirty| == |bodies|
    && forall n {:trigger bodies[n]} :: 0 <= n < |bodies| && (dirty[n] || reset) ==> Checksum.Narrow(bodies[n], limit)
  }

  /** Different slots hold different objects. */
  predicate Disjoint(ts: seq<Target>)
  {
    forall i, j :: 0 <= i < |ts| && 0 <= j < |ts| && i != j ==>
      PageOf(ts[i]) !! PageOf(ts[j]) && SchedOf(ts[i]) !! SchedOf(ts[j])
  }

  /** The slot number of each object of a walk. */
  datatype Seats = Seats(pages: map<Pages.Page, nat>, scheds: map<Schedules.Schedule, nat>)

  /** `seats` gives each object of `ts` the slot it sits in. */
  predicate Seated(ts: seq<Target>, seats: Seats)
  {
    forall n {:trigger ts[n]} :: 0 <= n < |ts| ==>
      (ts[n].PageTarget? ==> ts[n].page in seats.pages && seats.pages[ts[n].page] == n)
      && (ts[n].SchedTarget? ==> ts[n].sched in seats.scheds && seats.scheds[ts[n].sched] == n)
  }

  /** Pairwise different objects can be given their slot numbers. */
  lemma Seat(ts: seq<Target>) returns (seats: Seats)
    requires Disjoint(ts)
    ensures Seated(ts, seats)
  {
    var pages := map n | 0 <= n < |ts| && ts[n].PageTarget? :: ts[n].page := n;
    var scheds := map n | 0 <= n < |ts| && ts[n].SchedTarget? :: ts[n].sched := n;
    seats := Seats(pages, scheds);
  }

  class Leds {
    const variant: Variant
    /** The sign's address; 0 is the broadcast address. */
    const device: nat
    var lines: map<string, map<string, Pages.Page>>
    var lineOrder: seq<string>
    var pageOrder: map<string, seq<string>>
    var schedules: map<string, Schedules.Schedule>
    var schedOrder: seq<string>
    var defaultPage: string
    /** Every frame written to the serial port, oldest first. */
    var sent: seq<string>
    /** What the sign will have buffered at each coming read. */
    var replies: seq<string>
    /** How often the configuration was saved (`confput`). */
    var saves: nat
    ghost var PageRepr: set<Pages.Page>
    ghost var SchedRepr: set<Schedules.Schedule>
    /** The slot each page and each schedule sits in. */
    ghost var PageHome: map<Pages.Page, (string, string)>
    ghost var SchedHome: map<Schedules.Schedule, string>

    /** Lines and their page orders agree, and every page slot holds its own
        page of this board. */
    ghost predicate LinesOk()
      reads this`lines, this`lineOrder, this`pageOrder, this`PageRepr, this`PageHome
    {
      LinesShape(variant, lines, lineOrder, pageOrder, PageRepr, PageHome)
    }

    /** The schedule order lists the schedules once each, and no schedule
        sits in two slots. */
    ghost predicate SchedsOk()
      reads this`schedules, this`schedOrder, this`SchedRepr, this`SchedHome
    {
      SchedsShape(schedules, schedOrder, SchedRepr, SchedHome)
    }

    ghost predicate Valid()
      reads this`lines, this`lineOrder, this`pageOrder, this`schedules, this`schedOrder
      reads this`PageRepr, this`SchedRepr, this`PageHome, this`SchedHome
    {
      LinesOk() && SchedsOk()
    }

    /** A fresh driver: line "1" without pages, no schedules, default page "A". */
    constructor (variant: Variant, device: nat, replies: seq<string>)
      ensures Valid() && this.variant == variant && this.device == device && this.replies == replies
      ensures lines == map["1" := map[]] && lineOrder == ["1"] && pageOrder == map["1" := []]
      ensures schedules == map[] && schedOrder == []
      ensures defaultPage == "A" && sent == [] && saves == 0 && PageRepr == {} && SchedRepr == {}
    {
      this.variant := variant;
      this.device := device;
      this.replies := replies;
      lines := map["1" := map[]];
      lineOrder := ["1"];
      pageOrder := map["1" := []];
      schedules := map[];
      schedOrder := [];
      defaultPage := "A";
      sent := [];
      saves := 0;
      PageRepr := {};
      SchedRepr := {};
      PageHome := map[];
      SchedHome := map[];
    }

    predicate Has(it: Item)
      reads this`lines, this`schedules
    {
      match it
      case PageItem(l, p) => l in lines && p in lines[l]
      case SchedItem(s) => s in schedules
    }

    /** The page object in slot `it`, if it names one. */
    function PageAt(it: Item): set<Pages.Page>
      reads this`lines
    {
      if it.PageItem? && it.line in lines && it.id in lines[it.line] then {lines[it.line][it.id]} else {}
    }

    /** The schedule object in slot `it`, if it names one. */
    function SchedAt(it: Item): set<Schedules.Schedule>
      reads this`schedules
    {
      if it.SchedItem? && it.id in schedules then {schedules[it.id]} else {}
    }

    /** The item's dirty flag. */
    predicate Dirty(it: Item)
      requires Has(it)
      reads this`lines, this`schedules, PageAt(it)`changed, SchedAt(it)`changed
    {
      match it
      case PageItem(l, p) => lines[l][p].changed
      case SchedItem(s) => schedules[s].changed
    }

    /** An active schedule needs both dates to be sent (`None.sched()` raises). */
    predicate Ready(it: Item)
      requires Has(it)
      reads this`lines, this`schedules, SchedAt(it)`active, SchedAt(it)`st, SchedAt(it)`en
    {
      it.SchedItem? ==> schedules[it.id].active ==> schedules[it.id].Dated()
    }

    /** The body `pushchanges` sends for an item: `<L l><P p>` and the page,
        `<T s>` and the schedule when active, `<DT s>` when not. */
    function Body(it: Item): string
      requires Has(it) && Ready(it)
      reads this`lines, this`schedules
      reads PageAt(it)`FX, PageAt(it)`MX, PageAt(it)`WX, PageAt(it)`FY, PageAt(it)`MM
      reads SchedAt(it)`st, SchedAt(it)`en, SchedAt(it)`PP, SchedAt(it)`active
    {
      match it
      case PageItem(l, p) => "<L" + l + "><P" + p + ">" + lines[l][p].Packet()
      case SchedItem(s) =>
        if schedules[s].active then "<T" + s + ">" + schedules[s].Packet() else "<DT" + s + ">"
    }

    /** What `pushchanges` walks, in its order: the lines in dictionary
        order with the pages of each sorted by id, then the schedules. */
    function Items(): seq<Item>
      requires OrderOk(lineOrder, pageOrder)
      reads this`lineOrder, this`pageOrder, this`schedOrder
    {
      PageItems(lineOrder, pageOrder) + SchedItems(schedOrder)
    }

    /** Every page and schedule in a slot is one the driver owns. */
    ghost predicate Framed()
      reads this`lines, this`schedules, this`PageRepr, this`SchedRepr
    {
      (forall l, p :: l in lines && p in lines[l] ==> lines[l][p] in PageRepr)
      && (forall s :: s in schedules ==> schedules[s] in SchedRepr)
    }

    ghost predicate Sendable(items: seq<Item>, reset: bool)
      requires Framed()
      reads this`lines, this`lineOrder, this`pageOrder, this`schedules, this`schedOrder
      reads this`PageRepr, this`SchedRepr, this`PageHome, this`SchedHome
      reads SchedRepr`st, SchedRepr`en
      reads PageRepr`changed, SchedRepr`changed, SchedRepr`active
    {
      forall i :: 0 <= i < |items| ==> Has(items[i]) && (Dirty(items[i]) || reset ==> Ready(items[i]))
    }

    /** What holds of a walk holds of its first `n` items. */
    lemma SendablePrefix(items: seq<Item>, reset: bool, n: nat)
      requires Framed() && Sendable(items, reset) && n <= |items|
      ensures Sendable(items[..n], reset)
    {
      assert forall i :: 0 <= i < n ==> items[..n][i] == items[i];
    }

    /** The bodies sent for `items`: those that are dirty, or all of them on reset. */
    ghost function Outgoing(items: seq<Item>, reset: bool): seq<string>
      requires Framed() && Sendable(items, reset)
      reads this`lines, this`lineOrder, this`pageOrder, this`schedules, this`schedOrder
      reads this`PageRepr, this`SchedRepr, this`PageHome, this`SchedHome
      reads PageRepr`FX, PageRepr`MX, PageRepr`WX, PageRepr`FY, SchedRepr`st, SchedRepr`en
      reads PageRepr`changed, SchedRepr`changed, SchedRepr`active, PageRepr`MM, SchedRepr`PP
      decreases |items|
    {
      if items == [] then []
      else
        var it := items[|items| - 1];
        SendablePrefix(items, reset, |items| - 1);
        Outgoing(items[..|items| - 1], reset) + (if Dirty(it) || reset then [Body(it)] else [])
    }

    /** Every item of the walk is a slot of the state, and every slot is walked. */
    lemma ItemsMembers(it: Item)
      requires Valid()
      ensures it in Items() <==> Has(it)
    {
      assert OrderOk(lineOrder, pageOrder);
      PageItemsMembers(lineOrder, pageOrder, it);
      if it.SchedItem? && it.id in schedOrder {
        var k :| 0 <= k < |schedOrder| && schedOrder[k] == it.id;
        assert SchedItems(schedOrder)[k] == it;
      }
    }

    /** No slot is walked twice. */
    lemma ItemsUnique()
      requires Valid()
      ensures Unique(Items())
    {
      assert OrderOk(lineOrder, pageOrder);
      PageItemsUnique(lineOrder, pageOrder);
      var a, b := PageItems(lineOrder, pageOrder), SchedItems(schedOrder);
      assert Unique(b) by {
        forall i, j | 0 <= i < j < |b|
          ensures b[i] != b[j]
        {
          assert b[i].id == schedOrder[i] && b[j].id == schedOrder[j];
        }
      }
      forall x | x in a
        ensures x !in b
      {
        PageItemsMembers(lineOrder, pageOrder, x);
      }
      UniqueAppend(a, b);
    }

    /** What `pushchanges` needs to run without raising: every active
        schedule it sends has both dates, and every body it sends fits the
        serial write (character codes up to 255, or up to 127 on the basic board). */
    ghost predicate PushReady(reset: bool)
      requires Valid()
      reads this`lines, this`lineOrder, this`pageOrder, this`schedules, this`schedOrder
      reads this`PageRepr, this`SchedRepr, this`PageHome, this`SchedHome
      reads PageRepr`FX, PageRepr`MX, PageRepr`WX, PageRepr`FY, SchedRepr`st, SchedRepr`en
      reads PageRepr`changed, SchedRepr`changed, SchedRepr`active, PageRepr`MM, SchedRepr`PP
    {
      OrderOk(lineOrder, pageOrder)
      && Sendable(Items(), reset)
      && forall i :: 0 <= i < |Items()| && (Dirty(Items()[i]) || reset) ==>
           Checksum.Narrow(Body(Items()[i]), CharLimit(variant))
    }

    /** Every body written by one `pushchanges(reset)`, in order. */
    ghost function Commands(reset: bool): seq<string>
      requires Valid() && PushReady(reset)
      reads this`lines, this`lineOrder, this`pageOrder, this`schedules, this`schedOrder
      reads this`PageRepr, this`SchedRepr, this`PageHome, this`SchedHome
      reads PageRepr`FX, PageRepr`MX, PageRepr`WX, PageRepr`FY, SchedRepr`st, SchedRepr`en
      reads PageRepr`changed, SchedRepr`changed, SchedRepr`active, PageRepr`MM, SchedRepr`PP
    {
      Lead(variant, reset) + Outgoing(Items(), reset) + Trail(variant)
    }

    /** The page objects in the slots of the lines. */
    ghost function SlotPages(): set<Pages.Page>
      reads this`lines
    {
      set l, p | l in lines && p in lines[l] :: lines[l][p]
    }

    /** No page and no schedule is marked modified. */
    ghost predicate Clean()
      reads this`lines, this`schedules, SlotPages()`changed, schedules.Values`changed
    {
      (forall l, p :: l in lines && p in lines[l] ==> !lines[l][p].changed)
      && (forall s :: s in schedules ==> !schedules[s].changed)
    }

    /** `response()`: one read of the sign's reply. */
    method Response() returns (ok: bool)
      modifies this`replies
      ensures Transport.Respond(device, old(replies)) == Transport.Answer(ok, replies)
    {
      if device == 0 {
        return true;
      }
      var out := "";
      if replies != [] {
        out := replies[0];
        replies := replies[1..];
      }
      ok := out != "" && out == Transport.Ack;
    }

    /** `send(packet)`: frame the body, write it, and read the reply. The
        write raises when a character does not fit, so callers must not
        send such a body. */
    method Send(packet: string) returns (ok: bool)
      requires Checksum.Narrow(packet, CharLimit(variant))
      modifies this`sent, this`replies
      ensures sent == old(sent) + [Checksum.Frame(device, packet)]
      ensures Transport.Respond(device, old(replies)) == Transport.Answer(ok, replies)
    {
      var cs := Checksum.Chsum(packet);
      var payload := "<ID" + Hex.Pad2(device, false) + ">" + packet + cs + "<E>";
      sent := sent + [payload];
      ok := Response();
    }

    /** `getline(page, line)` (advanced driver only): the page, if there is one. */
    function GetLine(page: string, line: string): (r: Option<Pages.Page>)
      requires variant == SixLeds
      reads this`lines
      ensures r.Some? <==> line in lines && page in lines[line]
      ensures r.Some? ==> r.value == lines[line][page]
    {
      if line in lines && page in lines[line] then Some(lines[line][page]) else None
    }

    /** `self.lines[line].update({page: o})` for a page not yet in the line. */
    method AddPage(line: string, page: string, o: Pages.Page)
      requires Valid() && line in lines && page !in lines[line]
      requires o !in PageRepr && o.variant == variant
      modifies this`lines, this`pageOrder, this`PageRepr, this`PageHome
      ensures Valid()
      ensures lines == old(lines)[line := old(lines[line])[page := o]]
      ensures pageOrder == old(pageOrder)[line := old(pageOrder[line]) + [page]]
      ensures PageRepr == old(PageRepr) + {o}
    {
      AddKeepsShape(variant, lines, lineOrder, pageOrder, PageRepr, PageHome, line, page, o);
      lines := lines[line := lines[line][page := o]];
      pageOrder := pageOrder[line := pageOrder[line] + [page]];
      PageRepr := PageRepr + {o};
      PageHome := PageHome[o := (line, page)];
    }

    /** `updateline` on a page the line already has: its `message`,
        `leadin`, `display`, `wait` and `lagging` setters in turn. */
    method UpdatePage(page: string, message: string, line: string, fx: string, mx: string, wx: string, fy: string)
      requires Valid() && line in lines && page in lines[line]
      modifies lines[line][page]
      ensures Valid()
      ensures forall q :: q in old(PageRepr) && q != lines[line][page] ==> unchanged(q)
      ensures
        var o := lines[line][page];
        o.MM == Pages.AssignMessage(old(o.MM), message)
        && o.FX == Pages.Assign(old(o.FX), fx, LeadInAlphabet)
        && o.MX == Pages.Assign(old(o.MX), mx, DisplayAlphabet(variant))
        && o.WX == Pages.Assign(old(o.WX), wx, WaitAlphabet)
        && o.FY == Pages.Assign(old(o.FY), fy, LagAlphabet)
        && o.changed == (old(o.changed) || |message| > 0 || Pages.Takes(old(o.FX), fx, LeadInAlphabet)
                         || Pages.Takes(old(o.MX), mx, DisplayAlphabet(variant))
                         || Pages.Takes(old(o.WX), wx, WaitAlphabet) || Pages.Takes(old(o.FY), fy, LagAlphabet))
    {
      var o := lines[line][page];
      var _ := o.Message(message);
      var _ := o.LeadIn(fx);
      var _ := o.Display(mx);
      var _ := o.Wait(wx);
      var _ := o.Lagging(fy);
    }

    /** `updateline` on a page the line does not have yet: a new page is
        made from the arguments and appended to the line. */
    method InsertPage(page: string, message: string, line: string, fx: string, mx: string, wx: string, fy: string)
      returns (o: Pages.Page)
      requires Valid() && line in lines && page !in lines[line]
      modifies this`lines, this`pageOrder, this`PageRepr, this`PageHome
      ensures Valid()
      ensures lines == old(lines)[line := old(lines[line])[page := o]]
      ensures pageOrder == old(pageOrder)[line := old(pageOrder[line]) + [page]]
      ensures PageRepr == old(PageRepr) + {o}
      ensures fresh(o) && o.MM == message && o.changed
      ensures o.FX == Pages.Assign([], fx, LeadInAlphabet) && o.MX == Pages.Assign([], mx, DisplayAlphabet(variant))
      ensures o.WX == Pages.Assign([], wx, WaitAlphabet) && o.FY == Pages.Assign([], fy, LagAlphabet)
    {
      o := new Pages.Page(variant, message, fx, mx, wx, fy);
      AddPage(line, page, o);
    }

    /** `updateline`: an existing page goes through `message` and the four
        setters (which keep a value when the argument is not one of theirs);
        a new page is made from the arguments and appended to the line. */
    method UpdateLine(page: string, message: string, line: string, fx: string, mx: string, wx: string, fy: string)
      requires Valid() && line in lines
      modifies this`lines, this`pageOrder, this`PageRepr, this`PageHome, PageRepr
      ensures Valid()
      ensures page in old(lines[line]) ==>
        lines == old(lines) && pageOrder == old(pageOrder) && PageRepr == old(PageRepr)
      ensures page !in old(lines[line]) ==>
        page in lines[line] && lines == old(lines)[line := lines[line]]
        && lines[line] == old(lines[line])[page := lines[line][page]]
        && pageOrder == old(pageOrder)[line := old(pageOrder[line]) + [page]]
        && PageRepr == old(PageRepr) + {lines[line][page]} && fresh(lines[line][page])
      ensures forall q :: q in old(PageRepr) && q != lines[line][page] ==> unchanged(q)
      ensures page in old(lines[line]) ==>
        var o := lines[line][page];
        o.MM == Pages.AssignMessage(old(o.MM), message)
        && o.FX == Pages.Assign(old(o.FX), fx, LeadInAlphabet)
        && o.MX == Pages.Assign(old(o.MX), mx, DisplayAlphabet(variant))
        && o.WX == Pages.Assign(old(o.WX), wx, WaitAlphabet)
        && o.FY == Pages.Assign(old(o.FY), fy, LagAlphabet)
        && o.changed == (old(o.changed) || |message| > 0 || Pages.Takes(old(o.FX), fx, LeadInAlphabet)
                         || Pages.Takes(old(o.MX), mx, DisplayAlphabet(variant))
                         || Pages.Takes(old(o.WX), wx, WaitAlphabet) || Pages.Takes(old(o.FY), fy, LagAlphabet))
      ensures page !in old(lines[line]) ==>
        var o := lines[line][page];
        o.MM == message && o.changed
        && o.FX == Pages.Assign([], fx, LeadInAlphabet) && o.MX == Pages.Assign([], mx, DisplayAlphabet(variant))
        && o.WX == Pages.Assign([], wx, WaitAlphabet) && o.FY == Pages.Assign([], fy, LagAlphabet)
    {
      if page in lines[line] {
        UpdatePage(page, message, line, fx, mx, wx, fy);
      } else {
        var o := InsertPage(page, message, line, fx, mx, wx, fy);
        assert lines[line][page] == o;
      }
    }

    /** `updatesched`: an unknown schedule with pages and `active` is
        created; otherwise the schedule must exist, is (de)activated, and
        with pages also gets them and both dates (marking it every time). */
    method UpdateSched(sched: string, pages: string, active: bool, start: string, end: string)
      requires Valid()
      requires sched in schedules || (pages != [] && active)
      requires pages != [] ==> ParseDate(start).Ok? && ParseDate(end).Ok?
      modifies this`schedules, this`schedOrder, this`SchedRepr, this`SchedHome, SchedRepr
      ensures Valid()
      ensures schedules.Keys == old(schedules.Keys) + {sched}
      ensures forall s :: s in old(schedules) && s != sched ==>
        schedules[s] == old(schedules[s]) && unchanged(schedules[s])
      ensures sched !in old(schedules) ==>
        var o := schedules[sched];
        fresh(o) && schedOrder == old(schedOrder) + [sched]
        && o.PP == pages && o.st == ParseDate(start).value && o.en == ParseDate(end).value
        && o.active && o.changed
      ensures sched in old(schedules) ==>
        var o := schedules[sched];
        o == old(schedules[sched]) && schedOrder == old(schedOrder) && o.active == active
        && o.changed == (old(o.changed) || old(o.active) != active || pages != [])
        && (pages != [] ==> o.PP == pages && o.st == ParseDate(start).value && o.en == ParseDate(end).value)
        && (pages == [] ==> o.PP == old(o.PP) && o.st == old(o.st) && o.en == old(o.en))
    {
      if sched !in schedules && pages != [] && active {
        var o := new Schedules.Schedule(pages, start, end);
        AddKeepsSchedShape(schedules, schedOrder, SchedRepr, SchedHome, sched, o);
        schedules := schedules[sched := o];
        schedOrder := schedOrder + [sched];
        SchedRepr := SchedRepr + {o};
        SchedHome := SchedHome[o := sched];
      } else {
        var o := schedules[sched];
        o.Activate(active);
        if pages != [] {
          var _ := o.Pages(pages);
          o.Start(start);
          o.End(end);
        }
      }
    }

    /** `defaultrunpage`: a single letter becomes the default page and is
        sent as `<RP p>`; anything else changes nothing. */
    method DefaultRunPage(page: string) returns (current: string)
      modifies this`defaultPage, this`sent, this`replies
      ensures OneOf(page, PageLetters) ==>
        defaultPage == page && sent == old(sent) + [Checksum.Frame(device, "<RP" + page + ">")]
        && replies == Transport.Respond(device, old(replies)).rest
      ensures !OneOf(page, PageLetters) ==>
        defaultPage == old(defaultPage) && sent == old(sent) && replies == old(replies)
      ensures current == defaultPage
    {
      if |page| == 1 && page[0] in PageLetters {
        defaultPage := page;
        var _ := Send("<RP" + defaultPage + ">");
      }
      current := defaultPage;
    }

    /** `brightness`: a level `A` to `D` is sent as `<B x>`; either way the
        result is that of one more read of the sign's reply. */
    method Brightness(bn: string) returns (ok: bool)
      modifies this`sent, this`replies
      ensures OneOf(bn, BrightnessLevels) ==>
        sent == old(sent) + [Checksum.Frame(device, "<B" + bn + ">")]
        && Transport.Answer(ok, replies) == Transport.Respond(device, Transport.Respond(device, old(replies)).rest)
      ensures !OneOf(bn, BrightnessLevels) ==>
        sent == old(sent) && Transport.Answer(ok, replies) == Transport.Respond(device, old(replies))
    {
      if |bn| == 1 && bn[0] in BrightnessLevels {
        var _ := Send("<B" + bn + ">");
      }
      ok := Response();
    }

    /** `programgraphic` (advanced driver only): ids outside the graphic
        letters or block digits abort; otherwise the packed graphic is sent
        as `<G gid bid>` and 64 raw bytes. */
    method ProgramGraphic(graphicid: string, blockid: string, content: string)
      requires variant == SixLeds
      requires GraphicIdsOk(graphicid, blockid) ==> Graphic.Readable(Text.SplitLines(content))
      modifies this`sent, this`replies
      ensures GraphicIdsOk(graphicid, blockid) ==>
        sent == old(sent) + [Checksum.Frame(device, "<G" + graphicid + blockid + ">"
                                            + CharsOf(Graphic.Payload(Text.SplitLines(content))))]
        && replies == Transport.Respond(device, old(replies)).rest
      ensures !GraphicIdsOk(graphicid, blockid) ==> sent == old(sent) && replies == old(replies)
    {
      if !GraphicIdsOk(graphicid, blockid) {
        return;
      }
      var rows := Text.SplitLines(content);
      var data := Graphic.BuildPayload(rows);
      var packet := "";
      for i := 0 to 64
        invariant packet == CharsOf(data[..i])
      {
        packet := packet + [(data[i] as int) as char];
      }
      assert data[..64] == data[..];
      var head := "<G" + graphicid + blockid + ">";
      GraphicHeadNarrow(graphicid, blockid);
      Checksum.NarrowConcat(head, packet, 255);
      var _ := Send(head + packet);
    }

    /** Each item's dirty flag. */
    ghost function Flags(items: seq<Item>): (r: seq<bool>)
      requires Framed() && forall i :: 0 <= i < |items| ==> Has(items[i])
      reads this`lines, this`lineOrder, this`pageOrder, this`schedules, this`schedOrder
      reads this`PageRepr, this`SchedRepr, this`PageHome, this`SchedHome, PageRepr`changed, SchedRepr`changed
      ensures |r| == |items| && forall i :: 0 <= i < |items| ==> r[i] == Dirty(items[i])
      decreases |items|
    {
      if items == [] then [] else Flags(items[..|items| - 1]) + [Dirty(items[|items| - 1])]
    }

    /** The body of each item that a push sends, and "" for the others. */
    ghost function Bodies(items: seq<Item>, reset: bool): (r: seq<string>)
      requires Framed() && Sendable(items, reset)
      reads this`lines, this`lineOrder, this`pageOrder, this`schedules, this`schedOrder
      reads this`PageRepr, this`SchedRepr, this`PageHome, this`SchedHome
      reads PageRepr`FX, PageRepr`MX, PageRepr`WX, PageRepr`FY, SchedRepr`st, SchedRepr`en
      reads PageRepr`changed, SchedRepr`changed, SchedRepr`active, PageRepr`MM, SchedRepr`PP
      ensures |r| == |items|
      decreases |items|
    {
      if items == [] then []
      else
        var n := |items| - 1;
        SendablePrefix(items, reset, n);
        Bodies(items[..n], reset) + [if Dirty(items[n]) || reset then Body(items[n]) else ""]
    }

    /** An item that is written has its body in its place. */
    lemma {:induction false} BodiesAt(items: seq<Item>, reset: bool, i: nat)
      requires Framed() && Sendable(items, reset) && i < |items| && (Dirty(items[i]) || reset)
      ensures Bodies(items, reset)[i] == Body(items[i])
      decreases |items|
    {
      var n := |items| - 1;
      SendablePrefix(items, reset, n);
      var front := Bodies(items[..n], reset);
      assert Bodies(items, reset) == front + [if Dirty(items[n]) || reset then Body(items[n]) else ""];
      if i < n {
        assert items[..n][i] == items[i];
        BodiesAt(items[..n], reset, i);
      }
    }

    /** The outgoing bodies are those picked by the flags. */
    lemma {:induction false} OutgoingPick(items: seq<Item>, reset: bool)
      requires Framed() && Sendable(items, reset)
      ensures Outgoing(items, reset) == Pick(Flags(items), Bodies(items, reset), reset)
      decreases |items|
    {
      if items != [] {
        var n := |items| - 1;
        SendablePrefix(items, reset, n);
        OutgoingPick(items[..n], reset);
        assert Flags(items)[..n] == Flags(items[..n]);
        assert Bodies(items, reset)[..n] == Bodies(items[..n], reset);
      }
    }

    /** On a clean driver `pushchanges(False)` writes only its fixed frames. */
    lemma CleanPushesFrame()
      requires Valid() && Clean() && PushReady(false)
      ensures Commands(false) == Lead(variant, false) + Trail(variant)
    {
      var items := Items();
      WalkHas();
      OutgoingPick(items, false);
      var dirty := Flags(items);
      forall i | 0 <= i < |dirty|
        ensures !dirty[i]
      {
        match items[i]
        case PageItem(l, p) =>
        case SchedItem(s) =>
      }
      PickNone(dirty, Bodies(items, false));
      assert Outgoing(items, false) == [];
      assert Commands(false) == Lead(variant, false) + [] + Trail(variant);
      assert Lead(variant, false) + [] == Lead(variant, false);
    }

    /** `pushchanges(True)` writes the body of every slot, in walk order,
        between its fixed frames. */
    lemma ResetPushesAll()
      requires Valid() && PushReady(true)
      ensures Commands(true) == Lead(variant, true) + Bodies(Items(), true) + Trail(variant)
      ensures forall i :: 0 <= i < |Items()| ==> Bodies(Items(), true)[i] == Body(Items()[i])
    {
      var items := Items();
      OutgoingPick(items, true);
      PickAll(Flags(items), Bodies(items, true));
      forall i | 0 <= i < |items|
        ensures Bodies(items, true)[i] == Body(items[i])
      {
        BodiesAt(items, true, i);
      }
    }

    /** The slot `it` together with the object it holds. */
    function TargetOf(it: Item): (t: Target)
      requires Has(it)
      reads this`lines, this`schedules
      ensures PageOf(t) == PageAt(it) && SchedOf(t) == SchedAt(it)
    {
      match it
      case PageItem(l, p) => PageTarget(l, p, lines[l][p])
      case SchedItem(s) => SchedTarget(s, schedules[s])
    }

    ghost function Targets(items: seq<Item>): (r: seq<Target>)
      requires forall n :: 0 <= n < |items| ==> Has(items[n])
      reads this`lines, this`schedules
      ensures |r| == |items| && forall n :: 0 <= n < |items| ==> r[n] == TargetOf(items[n])
      decreases |items|
    {
      if items == [] then []
      else
        var n := |items| - 1;
        assert forall i :: 0 <= i < n ==> items[..n][i] == items[i];
        Targets(items[..n]) + [TargetOf(items[n])]
    }

    /** Two different slots hold different objects. */
    lemma SlotsApart(a: Item, b: Item)
      requires Valid() && Has(a) && Has(b) && a != b
      ensures PageAt(a) !! PageAt(b) && SchedAt(a) !! SchedAt(b)
    {
      if a.PageItem? && b.PageItem? {
        assert PageHome[lines[a.line][a.id]] == (a.line, a.id) && PageHome[lines[b.line][b.id]] == (b.line, b.id);
      } else if a.SchedItem? && b.SchedItem? {
        assert SchedHome[schedules[a.id]] == a.id && SchedHome[schedules[b.id]] == b.id;
      }
    }

    /** Every item of the walk is a slot of the state. */
    lemma WalkHas()
      requires Valid()
      ensures OrderOk(lineOrder, pageOrder) && forall n :: 0 <= n < |Items()| ==> Has(Items()[n])
    {
      assert OrderOk(lineOrder, pageOrder);
      forall n | 0 <= n < |Items()|
        ensures Has(Items()[n])
      {
        ItemsMembers(Items()[n]);
      }
    }

    /** Different slots of the walk hold different objects. */
    lemma WalkApart(items: seq<Item>, ts: seq<Target>) returns (seats: Seats)
      requires Valid() && OrderOk(lineOrder, pageOrder) && items == Items()
      requires forall n :: 0 <= n < |items| ==> Has(items[n])
      requires ts == Targets(items)
      ensures Seated(ts, seats)
    {
      ItemsUnique();
      forall i, j | 0 <= i < |ts| && 0 <= j < |ts| && i != j
        ensures PageOf(ts[i]) !! PageOf(ts[j]) && SchedOf(ts[i]) !! SchedOf(ts[j])
      {
        SlotsApart(items[i], items[j]);
      }
      seats := Seat(ts);
    }

    /** Each slot's object carries the slot's flag. */
    lemma WalkMarked(items: seq<Item>, ts: seq<Target>, dirty: seq<bool>)
      requires Valid() && forall n :: 0 <= n < |items| ==> Has(items[n])
      requires ts == Targets(items) && dirty == Flags(items)
      ensures MarkedFrom(ts, dirty, 0)
    {
    }

    /** A page slot that a push writes writes `<L line><P page>` and the
        page's packet, and the body fits the serial write. */
    lemma WalkPageBodies(items: seq<Item>, ts: seq<Target>, dirty: seq<bool>, bodies: seq<string>, reset: bool)
      requires Valid() && PushReady(reset) && items == Items()
      requires ts == Targets(items) && dirty == Flags(items) && bodies == Bodies(items, reset)
      ensures NarrowBodies(dirty, bodies, reset, CharLimit(variant))
      ensures PagesBodied(ts, dirty, bodies, reset)
    {
      forall n | 0 <= n < |ts| && (dirty[n] || reset)
        ensures Checksum.Narrow(bodies[n], CharLimit(variant))
      {
        assert Dirty(items[n]) == dirty[n];
        BodiesAt(items, reset, n);
      }
      forall n | 0 <= n < |ts| && ts[n].PageTarget? && (dirty[n] || reset)
        ensures var t := ts[n];
          PageBody(t.line, t.id, t.page.FX, t.page.MX, t.page.WX, t.page.FY, t.page.MM, t.page.variant) == bodies[n]
      {
        assert Dirty(items[n]) == dirty[n];
        BodiesAt(items, reset, n);
      }
    }

    /** A schedule slot that a push writes is dated when active, and writes
        `<T id>` and its packet, or `<DT id>`. */
    lemma WalkSchedBodies(items: seq<Item>, ts: seq<Target>, dirty: seq<bool>, bodies: seq<string>, reset: bool)
      requires Valid() && PushReady(reset) && items == Items()
      requires ts == Targets(items) && dirty == Flags(items) && bodies == Bodies(items, reset)
      ensures SchedsBodied(ts, dirty, bodies, reset)
    {
      forall n | 0 <= n < |ts| && ts[n].SchedTarget? && (dirty[n] || reset)
        ensures var o := ts[n].sched;
          (o.active ==> o.st.Some? && o.en.Some?) && SchedBody(ts[n].id, o.active, o.st, o.en, o.PP) == bodies[n]
      {
        assert Dirty(items[n]) == dirty[n] && Ready(items[n]);
        BodiesAt(items, reset, n);
      }
    }

    /** The page items come first in the walk, each naming a page of the driver. */
    lemma PageSlots(items: seq<Item>, ts: seq<Target>)
      requires OrderOk(lineOrder, pageOrder) && items == Items() && |ts| == |items|
      requires forall n :: 0 <= n < |items| ==> Has(items[n]) && ts[n] == TargetOf(items[n])
      ensures |PageItems(lineOrder, pageOrder)| <= |ts|
      ensures forall n {:trigger PageItems(lineOrder, pageOrder)[n]} :: 0 <= n < |PageItems(lineOrder, pageOrder)| ==>
        var it := PageItems(lineOrder, pageOrder)[n];
        it.PageItem? && it.line in lines && it.id in lines[it.line] && ts[n] == PageTarget(it.line, it.id, lines[it.line][it.id])
    {
      var pitems := PageItems(lineOrder, pageOrder);
      forall n | 0 <= n < |pitems|
        ensures pitems[n].PageItem? && items[n] == pitems[n]
      {
        PageItemsMembers(lineOrder, pageOrder, pitems[n]);
      }
    }

    /** The facts of a valid state the push loops use: every listed line
        exists, and every page and schedule is one of the driver's objects. */
    lemma ReprFacts()
      requires Valid()
      ensures OrderOk(lineOrder, pageOrder) && (forall l :: l in lineOrder ==> l in lines)
      ensures forall l, p :: l in lines && p in lines[l] ==> lines[l][p] in PageRepr
      ensures forall s :: s in schedules ==> schedules[s] in SchedRepr
    {
    }

    /** One item per schedule follows the page items, in the schedule order. */
    lemma SchedSlots(items: seq<Item>, ts: seq<Target>, base: nat)
      requires OrderOk(lineOrder, pageOrder) && items == Items() && |ts| == |items|
      requires forall n :: 0 <= n < |items| ==> Has(items[n]) && ts[n] == TargetOf(items[n])
      requires base == |PageItems(lineOrder, pageOrder)|
      ensures base + |schedOrder| == |ts|
      ensures forall t :: 0 <= t < |schedOrder| ==>
        schedOrder[t] in schedules && ts[base + t] == SchedTarget(schedOrder[t], schedules[schedOrder[t]])
    {
      var sitems := SchedItems(schedOrder);
      forall t | 0 <= t < |schedOrder|
        ensures schedOrder[t] in schedules && ts[base + t] == SchedTarget(schedOrder[t], schedules[schedOrder[t]])
      {
        assert items[base + t] == sitems[t];
      }
    }

    /** Every page and every schedule of the driver is a slot of `ts`. */
    ghost predicate Covers(ts: seq<Target>)
      reads this`lines, this`schedules
    {
      (forall l, p :: l in lines && p in lines[l] ==> PageTarget(l, p, lines[l][p]) in ts)
      && (forall s :: s in schedules ==> SchedTarget(s, schedules[s]) in ts)
    }

    lemma WalkCovers(items: seq<Item>, ts: seq<Target>)
      requires Valid() && OrderOk(lineOrder, pageOrder) && items == Items() && |ts| == |items|
      requires forall n :: 0 <= n < |items| ==> Has(items[n]) && ts[n] == TargetOf(items[n])
      ensures Covers(ts)
    {
      forall l, p | l in lines && p in lines[l]
        ensures PageTarget(l, p, lines[l][p]) in ts
      {
        ItemsMembers(PageItem(l, p));
        var n :| 0 <= n < |items| && items[n] == PageItem(l, p);
        assert ts[n] == PageTarget(l, p, lines[l][p]);
      }
      forall s | s in schedules
        ensures SchedTarget(s, schedules[s]) in ts
      {
        ItemsMembers(SchedItem(s));
        var n :| 0 <= n < |items| && items[n] == SchedItem(s);
        assert ts[n] == SchedTarget(s, schedules[s]);
      }
    }

    /** A walk over every slot that leaves each object unmarked leaves the driver clean. */
    lemma CleanAfter(ts: seq<Target>, dirty: seq<bool>)
      requires Covers(ts)
      requires MarkedFrom(ts, dirty, |ts|)
      ensures Clean()
    {
      forall l, p | l in lines && p in lines[l]
        ensures !lines[l][p].changed
      {
        var n :| 0 <= n < |ts| && ts[n] == PageTarget(l, p, lines[l][p]);
        assert !Marked(ts[n]);
      }
      forall s | s in schedules
        ensures !schedules[s].changed
      {
        var n :| 0 <= n < |ts| && ts[n] == SchedTarget(s, schedules[s]);
        assert !Marked(ts[n]);
      }
    }

    /** One pass of the page loop of `pushchanges` on item `k`:
        `page.modified(False)` clears the flag, and a page that was marked
        (or every page on reset) is sent as `<L line><P page>` and its packet. */
    method PushPage(l: string, p: string, page: Pages.Page, reset: bool, ghost ts: seq<Target>, ghost seats: Seats,
                    ghost dirty: seq<bool>, ghost bodies: seq<string>, ghost k: nat,
                    ghost s1: seq<string>, ghost r1: seq<string>, changes: nat, changed: nat)
      returns (changes': nat, changed': nat)
      requires k < |ts| == |dirty| == |bodies| && ts[k] == PageTarget(l, p, page) && Seated(ts, seats)
      requires Logged(device, dirty, bodies, reset, k, s1, r1, changes, changed, sent, replies)
      requires MarkedFrom(ts, dirty, k)
      requires NarrowBodies(dirty, bodies, reset, CharLimit(variant))
      requires PagesBodied(ts, dirty, bodies, reset)
      modifies this`sent, this`replies, {page}`changed
      ensures Logged(device, dirty, bodies, reset, k + 1, s1, r1, changes', changed', sent, replies)
      ensures MarkedFrom(ts, dirty, k + 1)
    {
      ghost var sent0, replies0 := sent, replies;
      var was := page.Modified(false);
      var counted := was || reset;
      var ok := false;
      if counted {
        ok := Send("<L" + l + "><P" + p + ">" + page.Packet());
      }
      changes', changed' := changes, changed;
      if counted {
        changes' := changes + 1;
        if ok {
          changed' := changed + 1;
        }
      }
      PushStep(device, dirty, bodies, reset, k, s1, r1, changes, changed, counted, ok,
               sent0, sent, replies0, replies);
      forall n | 0 <= n < |ts| && n != k
        ensures Marked(ts[n]) == old(Marked(ts[n]))
      {
        assert PageOf(ts[n]) !! PageOf(ts[k]);
      }
    }

    /** One pass of the schedule loop on item `k`: the flag is cleared, and
        a schedule that was marked (or every one on reset) is sent as
        `<T id>` and its packet when active, or deleted with `<DT id>` when not. */
    method PushSched(s: string, sched: Schedules.Schedule, reset: bool, ghost ts: seq<Target>, ghost seats: Seats,
                     ghost dirty: seq<bool>, ghost bodies: seq<string>, ghost k: nat,
                     ghost s1: seq<string>, ghost r1: seq<string>, changes: nat, changed: nat)
      returns (changes': nat, changed': nat)
      requires k < |ts| == |dirty| == |bodies| && ts[k] == SchedTarget(s, sched) && Seated(ts, seats)
      requires Logged(device, dirty, bodies, reset, k, s1, r1, changes, changed, sent, replies)
      requires MarkedFrom(ts, dirty, k)
      requires NarrowBodies(dirty, bodies, reset, CharLimit(variant))
      requires SchedsBodied(ts, dirty, bodies, reset)
      modifies this`sent, this`replies, {sched}`changed
      ensures Logged(device, dirty, bodies, reset, k + 1, s1, r1, changes', changed', sent, replies)
      ensures MarkedFrom(ts, dirty, k + 1)
    {
      ghost var sent0, replies0 := sent, replies;
      var was := sched.Modified(false);
      var counted := was || reset;
      var ok := false;
      if counted {
        if sched.active {
          ok := Send("<T" + s + ">" + sched.Packet());
        } else {
          ok := Send("<DT" + s + ">");
        }
      }
      changes', changed' := changes, changed;
      if counted {
        changes' := changes + 1;
        if ok {
          changed' := changed + 1;
        }
      }
      PushStep(device, dirty, bodies, reset, k, s1, r1, changes, changed, counted, ok,
               sent0, sent, replies0, replies);
      forall n | 0 <= n < |ts| && n != k
        ensures Marked(ts[n]) == old(Marked(ts[n]))
      {
        assert SchedOf(ts[n]) !! SchedOf(ts[k]);
      }
    }

    /** The inner loop of `pushchanges` over one line: its pages by id,
        at items `base` onwards of the walk. */
    method PushLine(l: string, ids: seq<string>, reset: bool, ghost ts: seq<Target>, ghost seats: Seats,
                    ghost dirty: seq<bool>, ghost bodies: seq<string>, ghost base: nat, ghost next: nat,
                    ghost s1: seq<string>, ghost r1: seq<string>, changes: nat, changed: nat)
      returns (changes': nat, changed': nat)
      requires l in lines && forall p :: p in lines[l] ==> lines[l][p] in PageRepr
      requires next == base + |ids| <= |ts| == |dirty| == |bodies| && Seated(ts, seats)
      requires forall j :: 0 <= j < |ids| ==> ids[j] in lines[l] && ts[base + j] == PageTarget(l, ids[j], lines[l][ids[j]])
      requires Logged(device, dirty, bodies, reset, base, s1, r1, changes, changed, sent, replies)
      requires MarkedFrom(ts, dirty, base)
      requires NarrowBodies(dirty, bodies, reset, CharLimit(variant))
      requires PagesBodied(ts, dirty, bodies, reset)
      modifies this`sent, this`replies, PageRepr`changed
      ensures Logged(device, dirty, bodies, reset, next, s1, r1, changes', changed', sent, replies)
      ensures MarkedFrom(ts, dirty, next)
    {
      changes', changed' := changes, changed;
      ghost var k := base;
      var j := 0;
      while j < |ids|
        invariant 0 <= j <= |ids| && k == base + j
        invariant Logged(device, dirty, bodies, reset, k, s1, r1, changes', changed', sent, replies)
        invariant MarkedFrom(ts, dirty, k)
        invariant PagesBodied(ts, dirty, bodies, reset)
      {
        changes', changed' := PushPage(l, ids[j], lines[l][ids[j]], reset, ts, seats, dirty, bodies, k, s1, r1,
                                       changes', changed');
        k := k + 1;
        j := j + 1;
      }
      assert k == next;
    }

    /** The outer loop of `pushchanges` over the lines, in the order they were added,
        each with its pages sorted by id. */
    method PushLines(reset: bool, ghost ts: seq<Target>, ghost seats: Seats, ghost dirty: seq<bool>,
                     ghost bodies: seq<string>, ghost s1: seq<string>, ghost r1: seq<string>, ghost base: nat)
      returns (changes: nat, changed: nat)
      requires OrderOk(lineOrder, pageOrder) && (forall l :: l in lineOrder ==> l in lines)
      requires forall l, p :: l in lines && p in lines[l] ==> lines[l][p] in PageRepr
      requires base == |PageItems(lineOrder, pageOrder)| <= |ts| == |dirty| == |bodies| && Seated(ts, seats)
      requires forall n {:trigger PageItems(lineOrder, pageOrder)[n]} :: 0 <= n < base ==>
        var it := PageItems(lineOrder, pageOrder)[n];
        it.PageItem? && it.line in lines && it.id in lines[it.line] && ts[n] == PageTarget(it.line, it.id, lines[it.line][it.id])
      requires Logged(device, dirty, bodies, reset, 0, s1, r1, 0, 0, sent, replies)
      requires MarkedFrom(ts, dirty, 0)
      requires NarrowBodies(dirty, bodies, reset, CharLimit(variant))
      requires PagesBodied(ts, dirty, bodies, reset)
      modifies this`sent, this`replies, PageRepr`changed
      ensures Logged(device, dirty, bodies, reset, base, s1, r1, changes, changed, sent, replies)
      ensures MarkedFrom(ts, dirty, base)
    {
      changes, changed := 0, 0;
      ghost var k := 0;
      var i := 0;
      while i < |lineOrder|
        invariant 0 <= i <= |lineOrder|
        invariant k == |PagesOfFirst(lineOrder, pageOrder, i)| <= base
        invariant Logged(device, dirty, bodies, reset, k, s1, r1, changes, changed, sent, replies)
        invariant MarkedFrom(ts, dirty, k)
      {
        var l := lineOrder[i];
        var ids := StringOrder.Sort(pageOrder[l]);
        LineAligned(lines, lineOrder, pageOrder, ts, i, l, ids, k);
        ghost var next := k + |ids|;
        changes, changed := PushLine(l, ids, reset, ts, seats, dirty, bodies, k, next, s1, r1, changes, changed);
        k := next;
        i := i + 1;
      }
      assert k == base;
    }

    /** The schedule loop of `pushchanges`, in the order the schedules were added. */
    method PushScheds(reset: bool, ghost ts: seq<Target>, ghost seats: Seats, ghost dirty: seq<bool>,
                      ghost bodies: seq<string>, ghost s1: seq<string>, ghost r1: seq<string>,
                      ghost base: nat, changes: nat, changed: nat)
      returns (changes': nat, changed': nat)
      requires base + |schedOrder| == |ts| == |dirty| == |bodies| && Seated(ts, seats)
      requires forall t :: 0 <= t < |schedOrder| ==>
        schedOrder[t] in schedules && ts[base + t] == SchedTarget(schedOrder[t], schedules[schedOrder[t]])
      requires forall s :: s in schedules ==> schedules[s] in SchedRepr
      requires Logged(device, dirty, bodies, reset, base, s1, r1, changes, changed, sent, replies)
      requires MarkedFrom(ts, dirty, base)
      requires NarrowBodies(dirty, bodies, reset, CharLimit(variant))
      requires SchedsBodied(ts, dirty, bodies, reset)
      modifies this`sent, this`replies, SchedRepr`changed
      ensures Logged(device, dirty, bodies, reset, |ts|, s1, r1, changes', changed', sent, replies)
      ensures MarkedFrom(ts, dirty, |ts|)
    {
      ghost var k := base;
      changes', changed' := changes, changed;
      var t := 0;
      while t < |schedOrder|
        invariant 0 <= t <= |schedOrder| && k == base + t
        invariant Logged(device, dirty, bodies, reset, k, s1, r1, changes', changed', sent, replies)
        invariant MarkedFrom(ts, dirty, k)
        invariant SchedsBodied(ts, dirty, bodies, reset)
      {
        changes', changed' := PushSched(schedOrder[t], schedules[schedOrder[t]], reset, ts, seats, dirty, bodies, k,
                                        s1, r1, changes', changed');
        k := k + 1;
        t := t + 1;
      }
      assert k == |ts|;
    }

    /** The lead-in of a push: `<D*>` on reset, then `<BE>` on the advanced board. */
    method PushLead(reset: bool)
      modifies this`sent, this`replies
      ensures sent == old(sent) + Frames(device, Lead(variant, reset))
      ensures replies == Transport.Consume(device, old(replies), |Lead(variant, reset)|)
    {
      FixedNarrow(variant);
      if reset {
        var _ := Send("<D*>");
      }
      if Brackets(variant) {
        var _ := Send("<BE>");
      }
      Transport.ConsumeAdd(device, old(replies), if reset then 1 else 0, if Brackets(variant) then 1 else 0);
    }

    /** The end of a push: `<BF>` on the advanced board. */
    method PushTrail()
      modifies this`sent, this`replies
      ensures sent == old(sent) + Frames(device, Trail(variant))
      ensures replies == Transport.Consume(device, old(replies), |Trail(variant)|)
    {
      FixedNarrow(variant);
      if Brackets(variant) {
        var _ := Send("<BF>");
      }
    }

    /** The walk proper of a push: every page, then every schedule, from
        `s1` and `r1` (the writes and replies after the lead-in). */
    method PushBody(reset: bool, ghost ts: seq<Target>, ghost seats: Seats, ghost dirty: seq<bool>, ghost bodies: seq<string>,
                    ghost base: nat, ghost s1: seq<string>, ghost r1: seq<string>)
      returns (changes: nat, changed: nat)
      requires OrderOk(lineOrder, pageOrder) && (forall l :: l in lineOrder ==> l in lines)
      requires forall l, p :: l in lines && p in lines[l] ==> lines[l][p] in PageRepr
      requires forall s :: s in schedules ==> schedules[s] in SchedRepr
      requires base == |PageItems(lineOrder, pageOrder)| && base + |schedOrder| == |ts| == |dirty| == |bodies| && Seated(ts, seats)
      requires forall n {:trigger PageItems(lineOrder, pageOrder)[n]} :: 0 <= n < |PageItems(lineOrder, pageOrder)| ==>
        var it := PageItems(lineOrder, pageOrder)[n];
        it.PageItem? && it.line in lines && it.id in lines[it.line] && ts[n] == PageTarget(it.line, it.id, lines[it.line][it.id])
      requires forall t :: 0 <= t < |schedOrder| ==>
        schedOrder[t] in schedules && ts[base + t] == SchedTarget(schedOrder[t], schedules[schedOrder[t]])
      requires MarkedFrom(ts, dirty, 0)
      requires NarrowBodies(dirty, bodies, reset, CharLimit(variant))
      requires PagesBodied(ts, dirty, bodies, reset)
      requires SchedsBodied(ts, dirty, bodies, reset)
      requires Covers(ts) && Logged(device, dirty, bodies, reset, 0, s1, r1, 0, 0, sent, replies)
      modifies this`sent, this`replies, PageRepr`changed, SchedRepr`changed
      ensures Logged(device, dirty, bodies, reset, |ts|, s1, r1, changes, changed, sent, replies)
      ensures Clean()
    {
      changes, changed := PushLines(reset, ts, seats, dirty, bodies, s1, r1, base);
      changes, changed := PushScheds(reset, ts, seats, dirty, bodies, s1, r1, base, changes, changed);
      CleanAfter(ts, dirty);
    }

    /** The writes of `pushchanges` over a walk `ts` whose flags are
        `dirty` and whose bodies are `bodies`: the lead-in, each slot in
        turn, the trail. `changed` counts the acknowledged bodies. */
    method PushWalk(reset: bool, ghost ts: seq<Target>, ghost seats: Seats, ghost dirty: seq<bool>, ghost bodies: seq<string>,
                    ghost base: nat)
      returns (changed: nat)
      requires OrderOk(lineOrder, pageOrder) && (forall l :: l in lineOrder ==> l in lines)
      requires forall l, p :: l in lines && p in lines[l] ==> lines[l][p] in PageRepr
      requires forall s :: s in schedules ==> schedules[s] in SchedRepr
      requires base == |PageItems(lineOrder, pageOrder)| && base + |schedOrder| == |ts| == |dirty| == |bodies| && Seated(ts, seats)
      requires forall n {:trigger PageItems(lineOrder, pageOrder)[n]} :: 0 <= n < |PageItems(lineOrder, pageOrder)| ==>
        var it := PageItems(lineOrder, pageOrder)[n];
        it.PageItem? && it.line in lines && it.id in lines[it.line] && ts[n] == PageTarget(it.line, it.id, lines[it.line][it.id])
      requires forall t :: 0 <= t < |schedOrder| ==>
        schedOrder[t] in schedules && ts[base + t] == SchedTarget(schedOrder[t], schedules[schedOrder[t]])
      requires MarkedFrom(ts, dirty, 0)
      requires NarrowBodies(dirty, bodies, reset, CharLimit(variant))
      requires PagesBodied(ts, dirty, bodies, reset)
      requires SchedsBodied(ts, dirty, bodies, reset)
      requires Covers(ts)
      modifies this`sent, this`replies, PageRepr`changed, SchedRepr`changed
      ensures sent == old(sent) + Frames(device, Lead(variant, reset) + Pick(dirty, bodies, reset) + Trail(variant))
      ensures replies == Transport.Consume(device, old(replies), |Lead(variant, reset) + Pick(dirty, bodies, reset) + Trail(variant)|)
      ensures changed == Transport.Acks(device, Transport.Consume(device, old(replies), |Lead(variant, reset)|),
                                        |Pick(dirty, bodies, reset)|)
      ensures Clean()
    {
      ghost var s0, r0 := sent, replies;
      PushLead(reset);
      ghost var s1, r1 := sent, replies;
      LoggedStart(device, dirty, bodies, reset, s1, r1);
      var changes;
      changes, changed := PushBody(reset, ts, seats, dirty, bodies, base, s1, r1);
      ghost var s2, r2 := sent, replies;
      PushTrail();
      LoggedEnd(device, Lead(variant, reset), Trail(variant), dirty, bodies, reset, s0, r0, s1, r1, changes, changed,
                s2, r2, sent, replies);
    }

    /** Everything the walk of a push relies on, stated on the slots and the
        fields of their objects: where each slot sits, its flag, and the body
        it writes; the slots cover the driver, and the bodies picked by the
        flags are the outgoing ones. */
    lemma PushPlan(reset: bool) returns (ts: seq<Target>, seats: Seats, dirty: seq<bool>, bodies: seq<string>, base: nat)
      requires Valid() && PushReady(reset)
      ensures OrderOk(lineOrder, pageOrder) && (forall l :: l in lineOrder ==> l in lines)
      ensures forall l, p :: l in lines && p in lines[l] ==> lines[l][p] in PageRepr
      ensures forall s :: s in schedules ==> schedules[s] in SchedRepr
      ensures base == |PageItems(lineOrder, pageOrder)| && base + |schedOrder| == |ts| == |dirty| == |bodies| && Seated(ts, seats)
      ensures forall n {:trigger PageItems(lineOrder, pageOrder)[n]} :: 0 <= n < |PageItems(lineOrder, pageOrder)| ==>
        var it := PageItems(lineOrder, pageOrder)[n];
        it.PageItem? && it.line in lines && it.id in lines[it.line] && ts[n] == PageTarget(it.line, it.id, lines[it.line][it.id])
      ensures forall t :: 0 <= t < |schedOrder| ==>
        schedOrder[t] in schedules && ts[base + t] == SchedTarget(schedOrder[t], schedules[schedOrder[t]])
      ensures MarkedFrom(ts, dirty, 0)
      ensures NarrowBodies(dirty, bodies, reset, CharLimit(variant))
      ensures PagesBodied(ts, dirty, bodies, reset)
      ensures SchedsBodied(ts, dirty, bodies, reset)
      ensures Covers(ts) && Outgoing(Items(), reset) == Pick(dirty, bodies, reset)
      ensures Commands(reset) == Lead(variant, reset) + Pick(dirty, bodies, reset) + Trail(variant)
    {
      WalkHas();
      var items := Items();
      ts, dirty, bodies := Targets(items), Flags(items), Bodies(items, reset);
      seats := WalkApart(items, ts);
      WalkMarked(items, ts, dirty);
      WalkPageBodies(items, ts, dirty, bodies, reset);
      WalkSchedBodies(items, ts, dirty, bodies, reset);
      OutgoingPick(items, reset);
      ReprFacts();
      PageSlots(items, ts);
      base := |PageItems(lineOrder, pageOrder)|;
      SchedSlots(items, ts, base);
      WalkCovers(items, ts);
    }

    /** Everything `pushchanges` does but the save: the writes, and every
        flag cleared. */
    method PushAll(reset: bool) returns (changed: nat)
      requires Valid() && PushReady(reset)
      modifies this`sent, this`replies, PageRepr`changed, SchedRepr`changed
      ensures Clean()
      ensures sent == old(sent) + Frames(device, old(Commands(reset)))
      ensures replies == Transport.Consume(device, old(replies), |old(Commands(reset))|)
      ensures changed == Transport.Acks(device, Transport.Consume(device, old(replies), |Lead(variant, reset)|),
                                        |old(Outgoing(Items(), reset))|)
    {
      ghost var ts, seats, dirty, bodies, base := PushPlan(reset);
      changed := PushWalk(reset, ts, seats, dirty, bodies, base);
    }

    /** `pushchanges(reset)`: `<D*>` on reset, then `<BE>` on the advanced
        board; every page of every line (lines in the order they were added, pages by
        id), then every schedule, has its flag cleared and is sent when it
        was marked or on reset; `<BF>` on the advanced board; and the
        configuration is saved when at least one body was acknowledged. */
    method PushChanges(reset: bool)
      requires Valid() && PushReady(reset)
      modifies this`sent, this`replies, this`saves, PageRepr`changed, SchedRepr`changed
      ensures Valid() && Clean()
      ensures sent == old(sent) + Frames(device, old(Commands(reset)))
      ensures replies == Transport.Consume(device, old(replies), |old(Commands(reset))|)
      ensures saves == old(saves) + (if Transport.Acks(device, Transport.Consume(device, old(replies), |Lead(variant, reset)|),
                                                      |old(Outgoing(Items(), reset))|) > 0 then 1 else 0)
    {
      var changed := PushAll(reset);
      if changed > 0 {
        saves := saves + 1;
      }
    }
  }
}
