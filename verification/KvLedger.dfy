/** Where page ids go: a copy-on-write insertion takes ids from the supply, releases pages of the tree it
    replaces, and touches nothing else. */
module KvLedger {
  import opened Collections
  import opened KvKeys
  import opened KvTree
  import opened KvTreeProofs
  import opened KvPages
  import opened KvPagesProofs

  // ----- One step of accounting -----

  /** The supply of fresh ids is disjoint from what the transaction already uses. */
  ghost predicate Supplied(w: Work, ids: set<PageId>) {
    NoRepeats(w.spare) && Elems(w.spare) !! w.dirty.Keys && Elems(w.spare) !! ids
  }

  /** From `w` to `after`, the pages `ids` became the pages `news`: `dropped` were released, `used` taken. */
  ghost predicate Moved(w: Work, ids: set<PageId>, after: Work, news: set<PageId>, used: seq<PageId>,
                        dropped: seq<PageId>) {
    && w.spare == used + after.spare
    && after.freed == w.freed + dropped
    && after.dirty.Keys == w.dirty.Keys + Elems(used)
    && NoRepeats(dropped) && Elems(dropped) <= ids - w.dirty.Keys
    && news == ids - Elems(dropped) + Elems(used)
    && Untouched(w, after, ids + Elems(used))
  }

  /** Pages outside `ids` are as they were. */
  ghost predicate Untouched(w: Work, after: Work, ids: set<PageId>) {
    forall x :: x !in ids && x in w.dirty ==> x in after.dirty && after.dirty[x] == w.dirty[x]
  }

  ghost predicate Accounted(w: Work, ids: set<PageId>, after: Work, news: set<PageId>) {
    exists used, dropped :: Moved(w, ids, after, news, used, dropped)
  }

  lemma {:induction false} AccountedFrame(w: Work, ids: set<PageId>, after: Work, news: set<PageId>, more: set<PageId>)
    requires Accounted(w, ids, after, news) && more !! ids
    ensures Accounted(w, ids + more, after, news + more)
  {
    var used, dropped :| Moved(w, ids, after, news, used, dropped);
    assert Moved(w, ids + more, after, news + more, used, dropped);
  }

  /** Two moves in a row: the pages. */
  lemma {:induction false} MovedThenIds(ids: set<PageId>, dirty: set<PageId>, used: set<PageId>, dropped: set<PageId>,
                                        used': set<PageId>, dropped': set<PageId>)
    requires dropped <= ids - dirty && dropped' <= ids - dropped + used - (dirty + used) && used' !! ids
    ensures dropped + dropped' <= ids - dirty && dropped !! dropped'
    ensures ids - dropped + used - dropped' + used' == ids - (dropped + dropped') + (used + used')
  {
  }

  /** Two moves in a row: the contents. */
  lemma {:induction false} UntouchedThen(w: Work, mid: Work, after: Work, a: set<PageId>, b: set<PageId>,
                                         c: set<PageId>)
    requires Untouched(w, mid, a) && Untouched(mid, after, b) && a + b <= c
    ensures Untouched(w, after, c)
  {
  }

  lemma {:induction false} MovedThen(w: Work, ids: set<PageId>, mid: Work, mids: set<PageId>, after: Work,
                                     news: set<PageId>,
                                     used: seq<PageId>, dropped: seq<PageId>, used': seq<PageId>, dropped': seq<PageId>)
    requires Moved(w, ids, mid, mids, used, dropped) && Moved(mid, mids, after, news, used', dropped')
    requires Elems(used') !! ids
    ensures Moved(w, ids, after, news, used + used', dropped + dropped')
  {
    ElemsConcat(used, used');
    ElemsConcat(dropped, dropped');
    MovedThenIds(ids, w.dirty.Keys, Elems(used), Elems(dropped), Elems(used'), Elems(dropped'));
    NoRepeatsConcat(dropped, dropped');
    UntouchedThen(w, mid, after, ids + Elems(used), mids + Elems(used'), ids + Elems(used + used'));
  }

  lemma {:induction false} AccountedThen(w: Work, ids: set<PageId>, mid: Work, mids: set<PageId>, after: Work,
                                         news: set<PageId>)
    requires Supplied(w, ids) && Accounted(w, ids, mid, mids) && Accounted(mid, mids, after, news)
    ensures Accounted(w, ids, after, news)
  {
    var used, dropped :| Moved(w, ids, mid, mids, used, dropped);
    var used', dropped' :| Moved(mid, mids, after, news, used', dropped');
    ElemsConcat(used', after.spare);
    ElemsConcat(used, mid.spare);
    MovedThen(w, ids, mid, mids, after, news, used, dropped, used', dropped');
  }

  lemma {:induction false} SuppliedThen(w: Work, ids: set<PageId>, after: Work, news: set<PageId>)
    requires Supplied(w, ids) && Accounted(w, ids, after, news)
    ensures Supplied(after, news) && Elems(after.spare) <= Elems(w.spare)
    ensures news <= ids + Elems(w.spare) && w.dirty.Keys <= after.dirty.Keys
  {
    var used, dropped :| Moved(w, ids, after, news, used, dropped);
    ElemsConcat(used, after.spare);
    NoRepeatsConcat(used, after.spare);
  }

  lemma {:induction false} SuppliedPart(w: Work, ids: set<PageId>, part: set<PageId>)
    requires Supplied(w, ids) && part <= ids
    ensures Supplied(w, part)
  {
  }

  // ----- The elementary steps -----

  lemma {:induction false} CowAccounts(w: Work, id: PageId, p: Page)
    requires (id !in w.dirty ==> w.spare != []) && Supplied(w, {id})
    ensures Accounted(w, {id}, Cow(w, id, p), {CowId(w, id)}) && CowId(w, id) in Cow(w, id, p).dirty
    ensures id in w.dirty ==> CowId(w, id) == id
    ensures id !in w.dirty ==> CowId(w, id) in w.spare
  {
    var after := Cow(w, id, p);
    if id in w.dirty {
      assert w.spare == [] + w.spare && w.freed == w.freed + [];
      assert Moved(w, {id}, after, {id}, [], []);
    } else {
      var taken := w.spare[0];
      assert w.spare == [taken] + w.spare[1..];
      assert Moved(w, {id}, after, {taken}, [taken], [id]);
    }
  }

  lemma {:induction false} WriteAccounts(w: Work, id: PageId, p: Page, ids: set<PageId>)
    requires id in w.dirty && id in ids
    ensures Accounted(w, ids, Write(w, id, p), ids)
  {
    assert w.spare == [] + w.spare && w.freed == w.freed + [];
    assert Moved(w, ids, Write(w, id, p), ids, [], []);
  }

  lemma {:induction false} SplitAccounts(w: Work, id: PageId, left: Page, key: Key, right: Page, ids: set<PageId>)
    requires id in w.dirty && id in ids && w.spare != []
    ensures Accounted(w, ids, SettleSplit(w, id, left, key, right).work, ids + {w.spare[0]})
  {
    var taken := w.spare[0];
    assert w.spare == [taken] + w.spare[1..] && w.freed == w.freed + [];
    assert Moved(w, ids, SettleSplit(w, id, left, key, right).work, ids + {taken}, [taken], []);
  }

  // ----- Pages of lists of children -----

  lemma {:induction false} IdsOfConcat(a: seq<Child>, b: seq<Child>)
    ensures IdsOf(a + b) == IdsOf(a) + IdsOf(b)
    ensures DistinctAll(a + b) <==> DistinctAll(a) && DistinctAll(b) && IdsOf(a) !! IdsOf(b)
    decreases |b|
  {
    if b == [] {
      assert a + b == a;
    } else {
      assert (a + b)[..|a + b| - 1] == a + b[..|b| - 1];
      IdsOfConcat(a, b[..|b| - 1]);
    }
  }

  lemma {:induction false} IdsOfOne(c: Child)
    ensures IdsOf([c]) == Ids(c.page, c.sum.page) && (DistinctAll([c]) <==> Distinct(c.page, c.sum.page))
  {
    assert [c][..0] == [];
  }

  /** Two roots: the node, and its new sibling if there is one. */
  ghost function Roots(r: PutResult, key: Key): seq<Child>
    requires r.Done?
  {
    [Child(key, r.id, r.sum)] + (if r.sibling.None? then []
                                 else [Child(r.sibling.value.key, r.sibling.value.id, r.sibling.value.sum)])
  }

  lemma {:induction false} IdsOfMiddle(a: seq<Child>, mid: seq<Child>, b: seq<Child>)
    ensures IdsOf(a + mid + b) == IdsOf(a) + IdsOf(mid) + IdsOf(b)
    ensures DistinctAll(a + mid + b) <==>
            && DistinctAll(a) && DistinctAll(mid) && DistinctAll(b)
            && IdsOf(a) !! IdsOf(mid) && IdsOf(a) !! IdsOf(b) && IdsOf(mid) !! IdsOf(b)
  {
    IdsOfConcat(a + mid, b);
    IdsOfConcat(a, mid);
  }

  lemma {:induction false} FirstKeyNoPage(cs: seq<Child>)
    requires |cs| > 0
    ensures IdsOf(DropFirstKeyOf(cs)) == IdsOf(cs) && (DistinctAll(DropFirstKeyOf(cs)) <==> DistinctAll(cs))
  {
    var first := Child([], cs[0].page, cs[0].sum);
    assert cs == [cs[0]] + cs[1..];
    assert DropFirstKeyOf(cs) == [first] + cs[1..];
    IdsOfConcat([cs[0]], cs[1..]);
    IdsOfConcat([first], cs[1..]);
    IdsOfOne(cs[0]);
    IdsOfOne(first);
  }

  // ----- Verification depends on the pages of the tree only -----

  ghost predicate Agree(s: Store, t: Store, ids: set<PageId>) {
    forall x :: x in ids && x in s ==> x in t && t[x] == s[x]
  }

  lemma {:induction false} VerifiedFrame(s: Store, t: Store, id: PageId, sum: Checksum)
    requires Verified(s, id, sum) && Agree(s, t, Ids(id, sum.page))
    ensures Verified(t, id, sum)
    decreases sum
  {
    if sum.page.BranchPage? {
      var cs := sum.page.children;
      forall i | 0 <= i < |cs|
        ensures ChildVerified(t, cs, i)
      {
        assert ChildVerified(s, cs, i);
        ChildIds(cs, i);
        VerifiedFrame(s, t, cs[i].page, cs[i].sum);
      }
    }
  }

  lemma {:induction false} AllVerifiedFrame(s: Store, t: Store, cs: seq<Child>)
    requires AllVerified(s, cs) && Agree(s, t, IdsOf(cs))
    ensures AllVerified(t, cs)
  {
    forall i | 0 <= i < |cs|
      ensures ChildVerified(t, cs, i)
    {
      assert ChildVerified(s, cs, i);
      ChildIds(cs, i);
      VerifiedFrame(s, t, cs[i].page, cs[i].sum);
    }
  }

  lemma {:induction false} ChildIds(cs: seq<Child>, i: nat)
    requires i < |cs|
    ensures Ids(cs[i].page, cs[i].sum.page) <= IdsOf(cs)
    ensures DistinctAll(cs) ==> Distinct(cs[i].page, cs[i].sum.page)
  {
    assert cs == cs[..i] + [cs[i]] + cs[i + 1..];
    IdsOfMiddle(cs[..i], [cs[i]], cs[i + 1..]);
    IdsOfOne(cs[i]);
  }

  lemma {:induction false} AllVerifiedParts(s: Store, a: seq<Child>, b: seq<Child>)
    ensures AllVerified(s, a + b) <==> AllVerified(s, a) && AllVerified(s, b)
  {
    if AllVerified(s, a + b) {
      VerifiedParts(s, a, b);
    }
    if AllVerified(s, a) && AllVerified(s, b) {
      VerifiedWhole(s, a, b);
    }
  }

  lemma {:induction false} VerifiedParts(s: Store, a: seq<Child>, b: seq<Child>)
    requires AllVerified(s, a + b)
    ensures AllVerified(s, a) && AllVerified(s, b)
  {
    var ab := a + b;
    forall i | 0 <= i < |a| ensures ChildVerified(s, a, i) {
      assert ChildVerified(s, ab, i) && ab[i] == a[i];
    }
    forall i | 0 <= i < |b| ensures ChildVerified(s, b, i) {
      assert ChildVerified(s, ab, |a| + i) && ab[|a| + i] == b[i];
    }
  }

  lemma {:induction false} VerifiedWhole(s: Store, a: seq<Child>, b: seq<Child>)
    requires AllVerified(s, a) && AllVerified(s, b)
    ensures AllVerified(s, a + b)
  {
    var ab := a + b;
    forall i | 0 <= i < |ab|
      ensures ChildVerified(s, ab, i)
    {
      if i < |a| {
        assert ChildVerified(s, a, i) && ab[i] == a[i];
      } else {
        assert ChildVerified(s, b, i - |a|) && ab[i] == b[i - |a|];
      }
    }
  }

  lemma {:induction false} AllVerifiedMiddle(s: Store, a: seq<Child>, mid: seq<Child>, b: seq<Child>)
    ensures AllVerified(s, a + mid + b) <==> AllVerified(s, a) && AllVerified(s, mid) && AllVerified(s, b)
  {
    AllVerifiedParts(s, a + mid, b);
    AllVerifiedParts(s, a, mid);
  }

  lemma {:induction false} AllVerifiedOne(s: Store, c: Child)
    ensures AllVerified(s, [c]) <==> Verified(s, c.page, c.sum)
  {
    assert ChildVerified(s, [c], 0) <==> Verified(s, c.page, c.sum);
  }

  lemma {:induction false} FirstKeyVerified(s: Store, cs: seq<Child>)
    requires |cs| > 0 && AllVerified(s, cs)
    ensures AllVerified(s, DropFirstKeyOf(cs))
  {
    forall i | 0 <= i < |cs|
      ensures ChildVerified(s, DropFirstKeyOf(cs), i)
    {
      assert ChildVerified(s, cs, i);
    }
  }

  lemma {:induction false} UntouchedView(disk: Store, w: Work, ids: set<PageId>, after: Work, news: set<PageId>,
                                         others: set<PageId>)
    requires Accounted(w, ids, after, news) && others !! ids && others !! Elems(w.spare)
    ensures Agree(View(disk, w), View(disk, after), others)
  {
    var used, dropped :| Moved(w, ids, after, news, used, dropped);
    ElemsConcat(used, after.spare);
  }

  // ----- What an insertion does to the pages -----

  /** The result is a verified tree, or two, without repeated pages, and every page id is accounted for. */
  ghost predicate PutOk(disk: Store, w: Work, ids: set<PageId>, r: PutResult, key: Key) {
    r.Done? ==>
      && Accounted(w, ids, r.work, IdsOf(Roots(r, key)))
      && DistinctAll(Roots(r, key))
      && AllVerified(View(disk, r.work), Roots(r, key))
  }

  lemma {:induction false} LeafSettles(disk: Store, w: Work, id: PageId, p: Page, key: Key)
    requires id in w.dirty && p.LeafPage?
    ensures PutOk(disk, w, {id}, Settle(w, id, p), key)
  {
    var r := Settle(w, id, p);
    WriteAccounts(w, id, p, {id});
    IdsOfOne(Child(key, id, Sum(p)));
    AllVerifiedOne(View(disk, r.work), Child(key, id, Sum(p)));
    assert Roots(r, key) == [Child(key, id, Sum(p))];
  }

  lemma {:induction false} NodeSettles(disk: Store, w: Work, id: PageId, cs: seq<Child>, key: Key)
    requires id in w.dirty && id !in IdsOf(cs) && DistinctAll(cs) && AllVerified(View(disk, w), cs)
    ensures PutOk(disk, w, {id} + IdsOf(cs), Settle(w, id, BranchPage(cs)), key)
  {
    var p := BranchPage(cs);
    var r := Settle(w, id, p);
    WriteAccounts(w, id, p, {id} + IdsOf(cs));
    IdsOfOne(Child(key, id, Sum(p)));
    AllVerifiedFrame(View(disk, w), View(disk, r.work), cs);
    AllVerifiedOne(View(disk, r.work), Child(key, id, Sum(p)));
    assert Roots(r, key) == [Child(key, id, Sum(p))];
  }

  lemma {:induction false} SplitSettles(disk: Store, w: Work, id: PageId, left: Page, sep: Key, right: Page,
                                        ids: set<PageId>, key: Key)
    requires id in w.dirty && w.spare != [] && Supplied(w, {id} + ids)
    requires !left.JunkPage? && !right.JunkPage?
    requires var l, r := ChildrenOf(left), ChildrenOf(right);
             && IdsOf(l) + IdsOf(r) == ids && IdsOf(l) !! IdsOf(r) && id !in ids && DistinctAll(l) && DistinctAll(r)
             && AllVerified(View(disk, w), l) && AllVerified(View(disk, w), r)
    ensures PutOk(disk, w, {id} + ids, SettleSplit(w, id, left, sep, right), key)
  {
    var rid := w.spare[0];
    assert rid in Elems(w.spare);
    SplitAccounts(w, id, left, sep, right, {id} + ids);
    assert Roots(SettleSplit(w, id, left, sep, right), key)
           == [Child(key, id, Sum(left))] + [Child(sep, rid, Sum(right))];
    SplitIds(id, left, rid, right, ids, key, sep);
    SplitVerified(disk, w, id, left, sep, right, key);
  }

  lemma {:induction false} SplitIds(id: PageId, left: Page, rid: PageId, right: Page, ids: set<PageId>, key: Key,
                                    sep: Key)
    requires !left.JunkPage? && !right.JunkPage?
    requires var l, r := ChildrenOf(left), ChildrenOf(right);
             && IdsOf(l) + IdsOf(r) == ids && IdsOf(l) !! IdsOf(r) && DistinctAll(l) && DistinctAll(r)
    requires id !in ids && rid !in ids && id != rid
    ensures var roots := [Child(key, id, Sum(left))] + [Child(sep, rid, Sum(right))];
            IdsOf(roots) == {id} + ids + {rid} && DistinctAll(roots)
  {
    IdsOfConcat([Child(key, id, Sum(left))], [Child(sep, rid, Sum(right))]);
    IdsOfOne(Child(key, id, Sum(left)));
    IdsOfOne(Child(sep, rid, Sum(right)));
    IdsOfEmpty();
  }

  lemma {:induction false} SplitVerified(disk: Store, w: Work, id: PageId, left: Page, sep: Key, right: Page, key: Key)
    requires w.spare != [] && !left.JunkPage? && !right.JunkPage? && id != w.spare[0]
    requires forall x :: x in {id, w.spare[0]} ==> x !in IdsOf(ChildrenOf(left)) && x !in IdsOf(ChildrenOf(right))
    requires AllVerified(View(disk, w), ChildrenOf(left)) && AllVerified(View(disk, w), ChildrenOf(right))
    ensures AllVerified(View(disk, SettleSplit(w, id, left, sep, right).work),
                        [Child(key, id, Sum(left))] + [Child(sep, w.spare[0], Sum(right))])
  {
    var rid, after := w.spare[0], View(disk, SettleSplit(w, id, left, sep, right).work);
    AllVerifiedFrame(View(disk, w), after, ChildrenOf(left));
    AllVerifiedFrame(View(disk, w), after, ChildrenOf(right));
    AllVerifiedParts(after, [Child(key, id, Sum(left))], [Child(sep, rid, Sum(right))]);
    AllVerifiedOne(after, Child(key, id, Sum(left)));
    AllVerifiedOne(after, Child(sep, rid, Sum(right)));
  }

  lemma {:induction false} IdsOfEmpty()
    ensures IdsOf([]) == {} && DistinctAll([])
  {
  }

  ghost function ChildrenOf(p: Page): seq<Child> {
    if p.BranchPage? then p.children else []
  }

  lemma {:induction false} NodeSplits(disk: Store, pageSize: nat, w: Work, id: PageId, cs: seq<Child>, key: Key)
    requires id in w.dirty && id !in IdsOf(cs) && DistinctAll(cs) && AllVerified(View(disk, w), cs)
    requires Supplied(w, {id} + IdsOf(cs))
    ensures PutOk(disk, w, {id} + IdsOf(cs), SplitChildren(pageSize, w, id, cs), key)
  {
    if SplitChildren(pageSize, w, id, cs).Done? {
      var mid := |cs| / 2;
      var l, r := cs[..mid], cs[mid..];
      assert cs == l + r;
      IdsOfConcat(l, r);
      AllVerifiedParts(View(disk, w), l, r);
      FirstKeyNoPage(l);
      FirstKeyNoPage(r);
      FirstKeyVerified(View(disk, w), l);
      FirstKeyVerified(View(disk, w), r);
      SplitSettles(disk, w, id, BranchPage(DropFirstKeyOf(l)), cs[mid].key, BranchPage(DropFirstKeyOf(r)), IdsOf(cs),
                   key);
    }
  }

  /** The children after the one at `i` was rewritten, and perhaps split. */
  ghost function Spliced(cs: seq<Child>, i: nat, child: PutResult): seq<Child>
    requires i < |cs| && child.Done?
  {
    cs[..i] + Roots(child, cs[i].key) + cs[i + 1..]
  }

  lemma {:induction false} SplicedOk(disk: Store, w: Work, id: PageId, cs: seq<Child>, i: nat, child: PutResult)
    requires i < |cs| && child.Done? && id in w.dirty && id !in IdsOf(cs)
    requires DistinctAll(cs) && AllVerified(View(disk, w), cs) && Supplied(w, {id} + IdsOf(cs))
    requires PutOk(disk, w, Ids(cs[i].page, cs[i].sum.page), child, cs[i].key)
    ensures var more := Spliced(cs, i, child);
            && Accounted(w, {id} + IdsOf(cs), child.work, {id} + IdsOf(more))
            && DistinctAll(more) && id !in IdsOf(more) && id in child.work.dirty
            && AllVerified(View(disk, child.work), more)
  {
    SplicedIds(w, id, cs, i, child);
    SplicedVerified(disk, w, cs, i, child);
  }

  lemma {:induction false} IdsAround(cs: seq<Child>, i: nat)
    requires i < |cs|
    ensures var a, own, b := cs[..i], Ids(cs[i].page, cs[i].sum.page), cs[i + 1..];
            && IdsOf(cs) == IdsOf(a) + own + IdsOf(b)
            && (DistinctAll(cs) ==>
                  DistinctAll(a) && DistinctAll(b) && IdsOf(a) !! own && IdsOf(a) !! IdsOf(b) && own !! IdsOf(b))
  {
    assert cs == cs[..i] + [cs[i]] + cs[i + 1..];
    IdsOfMiddle(cs[..i], [cs[i]], cs[i + 1..]);
    IdsOfOne(cs[i]);
  }

  lemma {:induction false} FrameRest(w: Work, own: set<PageId>, after: Work, news: set<PageId>, rest: set<PageId>)
    requires Accounted(w, own, after, news) && Supplied(w, own + rest) && own !! rest
    ensures Accounted(w, own + rest, after, news + rest) && news !! rest && w.dirty.Keys <= after.dirty.Keys
  {
    SuppliedPart(w, own + rest, own);
    SuppliedThen(w, own, after, news);
    AccountedFrame(w, own, after, news, rest);
  }

  lemma {:induction false} SplicedIds(w: Work, id: PageId, cs: seq<Child>, i: nat, child: PutResult)
    requires i < |cs| && child.Done? && id in w.dirty && id !in IdsOf(cs)
    requires DistinctAll(cs) && Supplied(w, {id} + IdsOf(cs))
    requires Accounted(w, Ids(cs[i].page, cs[i].sum.page), child.work, IdsOf(Roots(child, cs[i].key)))
    requires DistinctAll(Roots(child, cs[i].key))
    ensures var more := Spliced(cs, i, child);
            && Accounted(w, {id} + IdsOf(cs), child.work, {id} + IdsOf(more))
            && DistinctAll(more) && id !in IdsOf(more) && id in child.work.dirty
  {
    var own, roots := Ids(cs[i].page, cs[i].sum.page), Roots(child, cs[i].key);
    var rest := {id} + IdsOf(cs[..i]) + IdsOf(cs[i + 1..]);
    SplicedSets(id, cs, i, roots, own, rest);
    FrameRest(w, own, child.work, IdsOf(roots), rest);
    SplicedDistinct(id, cs, i, roots, own, rest);
  }

  lemma {:induction false} SplicedSets(id: PageId, cs: seq<Child>, i: nat, roots: seq<Child>, own: set<PageId>,
                                       rest: set<PageId>)
    requires i < |cs| && id !in IdsOf(cs) && DistinctAll(cs)
    requires own == Ids(cs[i].page, cs[i].sum.page) && rest == {id} + IdsOf(cs[..i]) + IdsOf(cs[i + 1..])
    ensures own + rest == {id} + IdsOf(cs) && own !! rest
    ensures IdsOf(roots) + rest == {id} + IdsOf(cs[..i] + roots + cs[i + 1..])
  {
    IdsAround(cs, i);
    IdsOfMiddle(cs[..i], roots, cs[i + 1..]);
  }

  lemma {:induction false} SplicedDistinct(id: PageId, cs: seq<Child>, i: nat, roots: seq<Child>, own: set<PageId>,
                                           rest: set<PageId>)
    requires i < |cs| && id !in IdsOf(cs) && DistinctAll(cs) && DistinctAll(roots)
    requires own == Ids(cs[i].page, cs[i].sum.page) && rest == {id} + IdsOf(cs[..i]) + IdsOf(cs[i + 1..])
    requires IdsOf(roots) !! rest
    ensures DistinctAll(cs[..i] + roots + cs[i + 1..]) && id !in IdsOf(cs[..i] + roots + cs[i + 1..])
  {
    IdsAround(cs, i);
    IdsOfMiddle(cs[..i], roots, cs[i + 1..]);
  }

  lemma {:induction false} SplicedVerified(disk: Store, w: Work, cs: seq<Child>, i: nat, child: PutResult)
    requires i < |cs| && child.Done?
    requires DistinctAll(cs) && AllVerified(View(disk, w), cs) && Supplied(w, IdsOf(cs))
    requires PutOk(disk, w, Ids(cs[i].page, cs[i].sum.page), child, cs[i].key)
    ensures AllVerified(View(disk, child.work), Spliced(cs, i, child))
  {
    var a, b, roots, w' := cs[..i], cs[i + 1..], Roots(child, cs[i].key), child.work;
    assert cs == a + [cs[i]] + b;
    IdsOfMiddle(a, [cs[i]], b);
    IdsOfOne(cs[i]);
    AllVerifiedMiddle(View(disk, w), a, [cs[i]], b);
    UntouchedView(disk, w, Ids(cs[i].page, cs[i].sum.page), w', IdsOf(roots), IdsOf(a) + IdsOf(b));
    AllVerifiedFrame(View(disk, w), View(disk, w'), a);
    AllVerifiedFrame(View(disk, w), View(disk, w'), b);
    AllVerifiedMiddle(View(disk, w'), a, roots, b);
  }

  lemma {:induction false} PutOkThen(disk: Store, w: Work, ids: set<PageId>, mid: Work, mids: set<PageId>,
                                     r: PutResult, key: Key)
    requires Supplied(w, ids) && Accounted(w, ids, mid, mids) && PutOk(disk, mid, mids, r, key)
    ensures PutOk(disk, w, ids, r, key)
  {
    if r.Done? {
      AccountedThen(w, ids, mid, mids, r.work, IdsOf(Roots(r, key)));
    }
  }

  ghost predicate SiblingFollows(cs: seq<Child>, i: nat, child: PutResult)
    requires i < |cs|
  {
    child.Done? && child.sibling.Some? ==>
      var s := child.sibling.value;
      AddChild(cs[i := Child(cs[i].key, child.id, child.sum)], Child(s.key, s.id, s.sum)) == Spliced(cs, i, child)
  }

  /** The new separator goes right after the child that was split. */
  lemma {:induction false} AddedIsSpliced(cs: seq<Child>, i: nat, child: PutResult, lo: Key, hi: Option<Key>)
    requires SeparatorsOk(EraseAll(cs), lo, hi) && i < |cs|
    requires child.Done? && child.sibling.Some?
    requires var kids, sep := EraseAll(cs), child.sibling.value.key;
             Less(LowOf(kids, i, lo), sep) && KeyIn(sep, LowOf(kids, i, lo), HighOf(kids, i, hi))
    ensures SiblingFollows(cs, i, child)
  {
    var s, c := child.sibling.value, Child(cs[i].key, child.id, child.sum);
    var replaced := cs[i := c];
    SeparatorsReplaced(cs, i, c, lo, hi);
    AddChildAfter(replaced, i, Child(s.key, s.id, s.sum), lo, hi);
    InsertAfter(cs, i, c, Child(s.key, s.id, s.sum));
  }

  lemma {:induction false} AddChildAfter(cs: seq<Child>, i: nat, c: Child, lo: Key, hi: Option<Key>)
    requires SeparatorsOk(EraseAll(cs), lo, hi) && i < |cs|
    requires Less(LowOf(EraseAll(cs), i, lo), c.key)
             && KeyIn(c.key, LowOf(EraseAll(cs), i, lo), HighOf(EraseAll(cs), i, hi))
    ensures AddChild(cs, c) == cs[..i + 1] + [c] + cs[i + 1..]
  {
    SeparatorPosition(EraseAll(cs), lo, hi, i, c.key);
    LessIrreflexive(c.key);
  }

  lemma {:induction false} SeparatorsReplaced(cs: seq<Child>, i: nat, c: Child, lo: Key, hi: Option<Key>)
    requires SeparatorsOk(EraseAll(cs), lo, hi) && i < |cs| && c.key == cs[i].key
    ensures var kids := EraseAll(cs[i := c]);
            && SeparatorsOk(kids, lo, hi)
            && LowOf(kids, i, lo) == LowOf(EraseAll(cs), i, lo) && HighOf(kids, i, hi) == HighOf(EraseAll(cs), i, hi)
  {
    EraseAllUpdate(cs, i, c);
    var kids, old_ := EraseAll(cs[i := c]), EraseAll(cs);
    assert forall j :: 0 <= j < |cs| ==> kids[j].key == old_[j].key;
  }

  lemma {:induction false} InsertAfter(cs: seq<Child>, i: nat, c: Child, d: Child)
    requires i < |cs|
    ensures cs[i := c][..i + 1] + [d] + cs[i := c][i + 1..] == cs[..i] + ([c] + [d]) + cs[i + 1..]
  {
  }

  lemma {:induction false} BranchPutOk(disk: Store, pageSize: nat, w: Work, id: PageId, cs: seq<Child>, i: nat,
                                       child: PutResult, key: Key)
    requires i < |cs| && id in w.dirty && id !in IdsOf(cs)
    requires DistinctAll(cs) && AllVerified(View(disk, w), cs) && Supplied(w, {id} + IdsOf(cs))
    requires PutOk(disk, w, Ids(cs[i].page, cs[i].sum.page), child, cs[i].key)
    requires SiblingFollows(cs, i, child)
    ensures PutOk(disk, w, {id} + IdsOf(cs), PutBranch(pageSize, id, cs, i, child), key)
  {
    if child.Done? {
      var w', more, r := child.work, Spliced(cs, i, child), PutBranch(pageSize, id, cs, i, child);
      SplicedOk(disk, w, id, cs, i, child);
      SuppliedThen(w, {id} + IdsOf(cs), w', {id} + IdsOf(more));
      BranchPutIs(pageSize, id, cs, i, child);
      if r == Settle(w', id, BranchPage(more)) {
        NodeSettles(disk, w', id, more, key);
      } else {
        NodeSplits(disk, pageSize, w', id, more, key);
      }
      PutOkThen(disk, w, {id} + IdsOf(cs), w', {id} + IdsOf(more), r, key);
    }
  }

  lemma {:induction false} BranchPutIs(pageSize: nat, id: PageId, cs: seq<Child>, i: nat, child: PutResult)
    requires i < |cs| && child.Done? && SiblingFollows(cs, i, child)
    ensures var r, more := PutBranch(pageSize, id, cs, i, child), Spliced(cs, i, child);
            r == Settle(child.work, id, BranchPage(more)) || r == SplitChildren(pageSize, child.work, id, more)
  {
    if child.sibling.None? {
      assert cs[i := Child(cs[i].key, child.id, child.sum)] == Spliced(cs, i, child);
    }
  }

  lemma {:induction false} LeafPutOk(disk: Store, pageSize: nat, w: Work, id: PageId, p: Page, k: Key, v: Value,
                                     key: Key)
    requires p.LeafPage? && id in w.dirty && Supplied(w, {id})
    ensures PutOk(disk, w, {id}, PutLeaf(pageSize, w, id, p, k, v), key)
  {
    var t := Erase(p);
    if LeafFits(t, k, v) {
      LeafSettles(disk, w, id, LeafOf(LeafPut(t, k, v)), key);
    } else if PutLeaf(pageSize, w, id, p, k, v).Done? {
      var split := SplitLeaf(pageSize, Upsert(p.entries, k, v));
      IdsOfEmpty();
      assert {id} + {} == {id};
      SplitSettles(disk, w, id, LeafOf(split.left), split.separator, LeafOf(split.right), {}, key);
    }
  }

  lemma {:induction false} CowOk(disk: Store, w: Work, id: PageId, sum: Checksum)
    requires (id !in w.dirty ==> w.spare != []) && Supplied(w, Ids(id, sum.page))
    requires Distinct(id, sum.page) && Verified(View(disk, w), id, sum)
    ensures var w', id', below := Cow(w, id, sum.page), CowId(w, id), IdsOf(ChildrenOf(sum.page));
            && Accounted(w, Ids(id, sum.page), w', {id'} + below) && Supplied(w', {id'} + below)
            && id' in w'.dirty && id' !in below
            && AllVerified(View(disk, w'), ChildrenOf(sum.page))
  {
    var w', id', below := Cow(w, id, sum.page), CowId(w, id), IdsOf(ChildrenOf(sum.page));
    IdsOfEmpty();
    assert Ids(id, sum.page) == {id} + below;
    CowAccounts(w, id, sum.page);
    AccountedFrame(w, {id}, w', {id'}, below);
    SuppliedThen(w, {id} + below, w', {id'} + below);
    UntouchedView(disk, w, {id}, w', {id'}, below);
    AllVerifiedFrame(View(disk, w), View(disk, w'), ChildrenOf(sum.page));
  }

  lemma {:induction false} VerifiedProper(s: Store, id: PageId, sum: Checksum)
    requires Verified(s, id, sum)
    ensures Proper(sum.page)
    decreases sum
  {
    if sum.page.BranchPage? {
      var cs := sum.page.children;
      forall i | 0 <= i < |cs|
        ensures Proper(cs[i].sum.page)
      {
        assert ChildVerified(s, cs, i);
        VerifiedProper(s, cs[i].page, cs[i].sum);
      }
    }
  }

  /** Every insertion into a verified search tree without repeated pages gives such trees again, takes the
      pages it writes from the supply, and frees exactly the pages of the old tree that it replaces. */
  lemma {:induction false} PutAccounts(disk: Store, pageSize: nat, w: Work, id: PageId, sum: Checksum, k: Key, v: Value,
                                       depth: nat, lo: Key, hi: Option<Key>, key: Key)
    requires Supplied(w, Ids(id, sum.page)) && Distinct(id, sum.page) && Verified(View(disk, w), id, sum)
    requires Ordered(Erase(sum.page), depth, lo, hi) && KeyIn(k, lo, hi)
    ensures PutOk(disk, w, Ids(id, sum.page), Put(pageSize, w, id, sum, k, v), key)
    decreases sum
  {
    var r := Put(pageSize, w, id, sum, k, v);
    if r.Done? {
      var w1, nid, cs := Cow(w, id, sum.page), CowId(w, id), ChildrenOf(sum.page);
      CowOk(disk, w, id, sum);
      if sum.page.LeafPage? {
        IdsOfEmpty();
        assert {nid} + {} == {nid};
        LeafPutOk(disk, pageSize, w1, nid, sum.page, k, v, key);
      } else {
        BelowAccounts(disk, pageSize, w1, nid, sum.page, k, v, depth, lo, hi, key);
      }
      PutOkThen(disk, w, Ids(id, sum.page), w1, {nid} + IdsOf(cs), r, key);
    }
  }

  lemma {:induction false} BelowAccounts(disk: Store, pageSize: nat, w: Work, id: PageId, p: Page, k: Key, v: Value,
                                         depth: nat, lo: Key, hi: Option<Key>, key: Key)
    requires p.BranchPage? && p.children != []
    requires var cs := p.children;
             && Supplied(w, {id} + IdsOf(cs)) && DistinctAll(cs) && AllVerified(View(disk, w), cs)
             && id in w.dirty && id !in IdsOf(cs)
    requires Ordered(Branch(EraseAll(p.children)), depth, lo, hi) && KeyIn(k, lo, hi)
    ensures var cs := p.children;
            var i := ChildIndex(EraseAll(cs), k);
            PutOk(disk, w, {id} + IdsOf(cs),
                  PutBranch(pageSize, id, cs, i, Put(pageSize, w, cs[i].page, cs[i].sum, k, v)), key)
    decreases p, 1
  {
    ChildAccounts(disk, pageSize, w, {id} + IdsOf(p.children), p, k, v, depth, lo, hi);
    BranchPutAccounts(disk, pageSize, w, id, p.children, k, v, depth, lo, hi, key);
  }

  lemma {:induction false} ChildAccounts(disk: Store, pageSize: nat, w: Work, ids: set<PageId>, p: Page, k: Key,
                                         v: Value, depth: nat, lo: Key, hi: Option<Key>)
    requires p.BranchPage? && p.children != [] && IdsOf(p.children) <= ids
    requires Supplied(w, ids) && DistinctAll(p.children) && AllVerified(View(disk, w), p.children)
    requires Ordered(Branch(EraseAll(p.children)), depth, lo, hi) && KeyIn(k, lo, hi)
    ensures var cs := p.children;
            var i := ChildIndex(EraseAll(cs), k);
            PutOk(disk, w, Ids(cs[i].page, cs[i].sum.page), Put(pageSize, w, cs[i].page, cs[i].sum, k, v), cs[i].key)
    decreases p, 0
  {
    var cs := p.children;
    var kids := EraseAll(cs);
    var i := ChildIndex(kids, k);
    ChildRange(kids, depth, lo, hi, k);
    ChildReady(View(disk, w), w, ids, cs, i);
    PutAccounts(disk, pageSize, w, cs[i].page, cs[i].sum, k, v, depth - 1, LowOf(kids, i, lo), HighOf(kids, i, hi),
                cs[i].key);
  }

  lemma {:induction false} ChildReady(store: Store, w: Work, ids: set<PageId>, cs: seq<Child>, i: nat)
    requires i < |cs| && Supplied(w, ids) && IdsOf(cs) <= ids && DistinctAll(cs) && AllVerified(store, cs)
    ensures Supplied(w, Ids(cs[i].page, cs[i].sum.page)) && Distinct(cs[i].page, cs[i].sum.page)
    ensures Verified(store, cs[i].page, cs[i].sum)
  {
    ChildIds(cs, i);
    assert ChildVerified(store, cs, i);
  }

  /** The branch's part, once its child has been accounted for. */
  lemma {:induction false} BranchPutAccounts(disk: Store, pageSize: nat, w: Work, id: PageId, cs: seq<Child>, k: Key,
                                             v: Value, depth: nat, lo: Key, hi: Option<Key>, key: Key)
    requires cs != [] && Supplied(w, {id} + IdsOf(cs)) && DistinctAll(cs) && AllVerified(View(disk, w), cs)
    requires id in w.dirty && id !in IdsOf(cs)
    requires Ordered(Branch(EraseAll(cs)), depth, lo, hi) && KeyIn(k, lo, hi)
    requires var i := ChildIndex(EraseAll(cs), k);
             PutOk(disk, w, Ids(cs[i].page, cs[i].sum.page), Put(pageSize, w, cs[i].page, cs[i].sum, k, v), cs[i].key)
    ensures var i := ChildIndex(EraseAll(cs), k);
            PutOk(disk, w, {id} + IdsOf(cs),
                  PutBranch(pageSize, id, cs, i, Put(pageSize, w, cs[i].page, cs[i].sum, k, v)), key)
  {
    var i := ChildIndex(EraseAll(cs), k);
    ChildSplits(disk, pageSize, w, cs, k, v, depth, lo, hi);
    BranchPutOk(disk, pageSize, w, id, cs, i, Put(pageSize, w, cs[i].page, cs[i].sum, k, v), key);
  }

  lemma {:induction false} ChildSplits(disk: Store, pageSize: nat, w: Work, cs: seq<Child>, k: Key, v: Value,
                                       depth: nat, lo: Key, hi: Option<Key>)
    requires cs != [] && AllVerified(View(disk, w), cs)
    requires Ordered(Branch(EraseAll(cs)), depth, lo, hi) && KeyIn(k, lo, hi)
    ensures var i := ChildIndex(EraseAll(cs), k);
            SiblingFollows(cs, i, Put(pageSize, w, cs[i].page, cs[i].sum, k, v))
  {
    var kids := EraseAll(cs);
    var i := ChildIndex(kids, k);
    var child := Put(pageSize, w, cs[i].page, cs[i].sum, k, v);
    if child.Done? && child.sibling.Some? {
      assert ChildVerified(View(disk, w), cs, i);
      VerifiedProper(View(disk, w), cs[i].page, cs[i].sum);
      PutRefines(pageSize, w, cs[i].page, cs[i].sum, k, v);
      ChildRange(kids, depth, lo, hi, k);
      InsertIntoAchieves(pageSize, kids[i].tree, depth - 1, LowOf(kids, i, lo), HighOf(kids, i, hi), k, v);
      AddedIsSpliced(cs, i, child, lo, hi);
    }
  }
}
