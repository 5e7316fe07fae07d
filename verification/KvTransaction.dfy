/** A write transaction as a whole: it starts from a committed tree and performs any number of insertions. */
module KvTransaction {
  import opened Collections
  import opened KvKeys
  import opened KvTree
  import opened KvTreeProofs
  import opened KvTreeRoom
  import opened KvPages
  import opened KvPagesProofs
  import opened KvLedger

  /** A whole tree in a store: every page has its checksum, no page occurs twice, and the pairs are in a
      balanced search tree. */
  ghost predicate Sound(store: Store, id: PageId, sum: Checksum) {
    Verified(store, id, sum) && Shape(id, sum)
  }

  ghost predicate Shape(id: PageId, sum: Checksum) {
    Distinct(id, sum.page) && TreeOk(Erase(sum.page))
  }

  /** The transaction's tree consists of the committed pages that were not freed and of its own pages. */
  ghost predicate Balanced(base: set<PageId>, w: Work, ids: set<PageId>) {
    && NoRepeats(w.freed) && Elems(w.freed) <= base
    && base !! w.dirty.Keys && base !! Elems(w.spare)
    && ids == base - Elems(w.freed) + w.dirty.Keys
  }

  /** What holds of a transaction on a committed tree with pages `base`, throughout its insertions. */
  ghost predicate WorkOk(disk: Store, base: set<PageId>, w: Work, id: PageId, sum: Checksum) {
    && Sound(View(disk, w), id, sum)
    && Supplied(w, Ids(id, sum.page))
    && Balanced(base, w, Ids(id, sum.page))
  }

  lemma {:induction false} BalancedThen(base: set<PageId>, w: Work, ids: set<PageId>, after: Work, news: set<PageId>)
    requires Balanced(base, w, ids) && Supplied(w, ids) && Accounted(w, ids, after, news)
    ensures Balanced(base, after, news)
    ensures after.dirty.Keys + Elems(after.spare) == w.dirty.Keys + Elems(w.spare)
  {
    var used, dropped :| Moved(w, ids, after, news, used, dropped);
    ElemsConcat(used, after.spare);
    ElemsConcat(w.freed, dropped);
    NoRepeatsConcat(w.freed, dropped);
  }

  /** The pages of a new root. */
  lemma {:induction false} GrowRoot(disk: Store, w: Work, cs: seq<Child>)
    requires w.spare != [] && Supplied(w, IdsOf(cs)) && DistinctAll(cs) && AllVerified(View(disk, w), cs)
    ensures var root, after := w.spare[0], Work(w.dirty[w.spare[0] := BranchPage(cs)], w.freed, w.spare[1..]);
            && Accounted(w, IdsOf(cs), after, Ids(root, BranchPage(cs)))
            && Distinct(root, BranchPage(cs)) && Verified(View(disk, after), root, Sum(BranchPage(cs)))
  {
    var root, after := w.spare[0], Work(w.dirty[w.spare[0] := BranchPage(cs)], w.freed, w.spare[1..]);
    assert root in Elems(w.spare);
    assert w.spare == [root] + w.spare[1..] && w.freed == w.freed + [];
    assert Moved(w, IdsOf(cs), after, Ids(root, BranchPage(cs)), [root], []);
    AllVerifiedFrame(View(disk, w), View(disk, after), cs);
  }

  lemma {:induction false} PutRootAccounts(disk: Store, pageSize: nat, w: Work, id: PageId, sum: Checksum, k: Key,
                                           v: Value)
    requires Sound(View(disk, w), id, sum) && Supplied(w, Ids(id, sum.page))
    requires PutRoot(pageSize, w, id, sum, k, v).Done?
    ensures var r := PutRoot(pageSize, w, id, sum, k, v);
            && Accounted(w, Ids(id, sum.page), r.work, Ids(r.id, r.sum.page))
            && Distinct(r.id, r.sum.page) && Verified(View(disk, r.work), r.id, r.sum)
  {
    var r, p := PutRoot(pageSize, w, id, sum, k, v), Put(pageSize, w, id, sum, k, v);
    var depth: nat :| Ordered(Erase(sum.page), depth, [], None);
    PutAccounts(disk, pageSize, w, id, sum, k, v, depth, [], None, []);
    var ids := Ids(id, sum.page);
    var c := Child([], p.id, p.sum);
    if p.sibling.None? {
      assert Roots(p, []) == [c];
      IdsOfOne(c);
      AllVerifiedOne(View(disk, p.work), c);
    } else {
      var cs := Roots(p, []);
      assert cs == [c, Child(p.sibling.value.key, p.sibling.value.id, p.sibling.value.sum)];
      SuppliedThen(w, ids, p.work, IdsOf(cs));
      GrowRoot(disk, p.work, cs);
      AccountedThen(w, ids, p.work, IdsOf(cs), r.work, Ids(r.id, r.sum.page));
    }
  }

  lemma {:induction false} PutRootRefines(pageSize: nat, w: Work, id: PageId, sum: Checksum, k: Key, v: Value)
    requires Proper(sum.page) && !PutRoot(pageSize, w, id, sum, k, v).Starved?
    ensures var r, u := PutRoot(pageSize, w, id, sum, k, v), Insert(pageSize, Erase(sum.page), k, v);
            if r.Done? then r.sibling.None? && u == Some(Erase(r.sum.page)) else u == None
  {
    var p := Put(pageSize, w, id, sum, k, v);
    PutRefines(pageSize, w, id, sum, k, v);
    if p.Done? && p.sibling.Some? {
      var cs := [Child([], p.id, p.sum), Child(p.sibling.value.key, p.sibling.value.id, p.sibling.value.sum)];
      assert EraseAll(cs) == [Kid([], Erase(p.sum.page)), Kid(p.sibling.value.key, Erase(p.sibling.value.sum.page))];
    }
  }

  /** With page ids enough, an insertion on pages fails exactly when the pages on the way to its key have no
      room for it. */
  lemma {:induction false} PutRootFailsIff(store: Store, pageSize: nat, w: Work, id: PageId, sum: Checksum, k: Key,
                                           v: Value)
    requires Sound(store, id, sum) && !PutRoot(pageSize, w, id, sum, k, v).Starved?
    ensures PutRoot(pageSize, w, id, sum, k, v).Overflowed? <==> NoRoom(pageSize, Erase(sum.page), k, v)
  {
    VerifiedProper(store, id, sum);
    PutRootRefines(pageSize, w, id, sum, k, v);
    InsertFailsIff(pageSize, Erase(sum.page), k, v);
  }

  /** Any insertion keeps a transaction sound and sets exactly one key; the ids it holds stay the same. */
  lemma {:induction false} InsertKeepsWork(disk: Store, base: set<PageId>, pageSize: nat, w: Work, id: PageId,
                                           sum: Checksum, k: Key, v: Value)
    requires WorkOk(disk, base, w, id, sum) && PutRoot(pageSize, w, id, sum, k, v).Done?
    ensures var r := PutRoot(pageSize, w, id, sum, k, v);
            && WorkOk(disk, base, r.work, r.id, r.sum)
            && Pairs(Erase(r.sum.page)) == Upsert(Pairs(Erase(sum.page)), k, v)
            && r.work.dirty.Keys + Elems(r.work.spare) == w.dirty.Keys + Elems(w.spare)
  {
    var r := PutRoot(pageSize, w, id, sum, k, v);
    VerifiedProper(View(disk, w), id, sum);
    PutRootAccounts(disk, pageSize, w, id, sum, k, v);
    PutRootRefines(pageSize, w, id, sum, k, v);
    InsertRefinesUpdate(pageSize, Erase(sum.page), k, v);
    SuppliedThen(w, Ids(id, sum.page), r.work, Ids(r.id, r.sum.page));
    BalancedThen(base, w, Ids(id, sum.page), r.work, Ids(r.id, r.sum.page));
  }
}
