/** The projection store over a document database: conditional upserts, and keyset pagination. */
module MongoViews {
  import opened ByteStrings
  import opened JsonText
  import opened PolicyEngine
  import opened Records

  datatype Doc = Doc(id: string, logId: string, view: View)

  /** One collection holds the views of every log; `id` is unique in it. */
  type Collection = map<string, Doc>

  predicate Keyed(col: Collection) {
    forall id :: id in col ==> col[id].id == id
  }

  datatype Query = Query(
    status: seq<Verdict>,
    kind: Option<string>,
    requestedBy: Option<string>,
    awaiting: Option<string>,
    subjectMatch: map<string, Json>)

  /** What the cursor text carries: the last document's place in the order. */
  datatype Cursor = Cursor(createdAt: string, id: string)

  datatype Page = Page(items: seq<View>, next: Option<Cursor>)

  function Place(d: Doc): Cursor {
    Cursor(d.view.createdAt, d.id)
  }

  predicate StrLt(a: string, b: string) {
    a != b && StrLe(a, b)
  }

  /** The `$or` condition: a later creation time, or the same one and a greater id. */
  predicate Beyond(d: Doc, c: Cursor) {
    StrLt(c.createdAt, d.view.createdAt) || (d.view.createdAt == c.createdAt && StrLt(c.id, d.id))
  }

  predicate Matches(logId: string, q: Query, d: Doc) {
    && d.logId == logId
    && (q.status == [] || d.view.status in q.status)
    && (q.kind.None? || d.view.kind == q.kind.value)
    && (q.requestedBy.None? || d.view.requestedBy == q.requestedBy.value)
    && (q.awaiting.None? || q.awaiting.value in d.view.pendingFor)
    && (q.subjectMatch == map[] || (d.view.subject.Obj? && forall f :: f in q.subjectMatch ==>
          f in d.view.subject.fields && d.view.subject.fields[f] == q.subjectMatch[f]))
  }

  function Matching(col: Collection, logId: string, q: Query, cursor: Option<Cursor>): set<Doc> {
    set id | id in col && Matches(logId, q, col[id]) && (cursor.None? || Beyond(col[id], cursor.value)) :: col[id]
  }

  // ------------------------------------------------------------------ the order

  predicate UniqueIds(ds: set<Doc>) {
    forall d, e :: d in ds && e in ds && d.id == e.id ==> d == e
  }

  /** Sorted by creation time, then id: each document lies beyond all before it. */
  ghost predicate InOrder(s: seq<Doc>) {
    forall i, j :: 0 <= i < j < |s| ==> Beyond(s[j], Place(s[i]))
  }

  lemma BeyondTransitive(a: Doc, b: Doc, c: Doc)
    requires Beyond(b, Place(a)) && Beyond(c, Place(b))
    ensures Beyond(c, Place(a))
  {
    hide StrLe;
    LtTransitive(a.view.createdAt, b.view.createdAt, c.view.createdAt);
    LtTransitive(a.id, b.id, c.id);
  }

  lemma LtTransitive(x: string, y: string, z: string)
    ensures StrLt(x, y) && StrLt(y, z) ==> StrLt(x, z)
  {
    if StrLt(x, y) && StrLt(y, z) {
      StrLeTransitive(x, y, z);
      if x == z {
        StrLeAntisymmetric(x, y);
      }
    }
  }

  lemma BeyondTotal(a: Doc, b: Doc)
    ensures Beyond(a, Place(b)) || Beyond(b, Place(a)) || a.id == b.id
    ensures !(Beyond(a, Place(b)) && Beyond(b, Place(a))) && !Beyond(a, Place(a))
  {
    hide StrLe;
    LtTotal(a.view.createdAt, b.view.createdAt);
    LtTotal(a.id, b.id);
  }

  lemma LtTotal(x: string, y: string)
    ensures StrLt(x, y) || StrLt(y, x) || x == y
    ensures !(StrLt(x, y) && StrLt(y, x))
  {
    StrLeTotal(x, y);
    if StrLt(x, y) && StrLt(y, x) {
      StrLeAntisymmetric(x, y);
    }
  }

  ghost predicate FirstOf(d: Doc, ds: set<Doc>) {
    d in ds && forall e :: e in ds && e != d ==> Beyond(e, Place(d))
  }

  lemma {:induction false} FirstExists(ds: set<Doc>)
    requires ds != {} && UniqueIds(ds)
    ensures exists d :: FirstOf(d, ds)
  {
    hide Beyond;
    var a :| a in ds;
    var rest := ds - {a};
    if rest == {} {
      assert ds == {a};
      assert FirstOf(a, ds);
    } else {
      FirstExists(rest);
      var f :| FirstOf(f, rest);
      BeyondTotal(a, f);
      if Beyond(a, Place(f)) {
        assert FirstOf(f, ds);
      } else {
        forall e | e in rest && e != f
          ensures Beyond(e, Place(a))
        {
          BeyondTransitive(a, f, e);
        }
        assert FirstOf(a, ds);
      }
    }
  }

  /** `find(...).sort([("created_at", ASCENDING), ("_id", ASCENDING)])` */
  ghost function Sorted(ds: set<Doc>): (s: seq<Doc>)
    requires UniqueIds(ds)
    ensures InOrder(s) && |s| == |ds|
    ensures forall d :: d in s <==> d in ds
  {
    if ds == {} then []
    else
      FirstExists(ds);
      var first :| FirstOf(first, ds);
      [first] + Sorted(ds - {first})
  }

  /** An order is determined by what it orders. */
  lemma {:induction false} OrderIsUnique(a: seq<Doc>, b: seq<Doc>)
    requires InOrder(a) && InOrder(b) && forall d :: d in a <==> d in b
    ensures a == b
  {
    hide Beyond;
    SameEmptiness(a, b);
    if a != [] {
      SameFirst(a, b);
      TailElements(a);
      TailElements(b);
      OrderIsUnique(a[1..], b[1..]);
      assert a == [a[0]] + a[1..] && b == [b[0]] + b[1..];
    }
  }

  lemma SameEmptiness(a: seq<Doc>, b: seq<Doc>)
    requires forall d :: d in a <==> d in b
    ensures a == [] <==> b == []
  {
    assert a != [] ==> a[0] in a;
    assert b != [] ==> b[0] in b;
  }

  lemma TailElements(a: seq<Doc>)
    requires InOrder(a) && a != []
    ensures InOrder(a[1..]) && forall d :: d in a[1..] <==> d in a && d != a[0]
  {
    hide Beyond;
    BeyondTotal(a[0], a[0]);
    assert a == [a[0]] + a[1..];
    TailIsLater(a);
  }

  lemma TailIsLater(a: seq<Doc>)
    requires InOrder(a) && a != []
    ensures InOrder(a[1..]) && forall k :: 0 <= k < |a| - 1 ==> Beyond(a[1..][k], Place(a[0]))
  {
    hide Beyond;
    assert forall k :: 0 <= k < |a| - 1 ==> a[1..][k] == a[k + 1];
  }

  lemma SameFirst(a: seq<Doc>, b: seq<Doc>)
    requires InOrder(a) && InOrder(b) && a != [] && b != [] && forall d :: d in a <==> d in b
    ensures a[0] == b[0]
  {
    hide Beyond;
    assert a[0] in b && b[0] in a;
    var i :| 0 <= i < |b| && b[i] == a[0];
    var j :| 0 <= j < |a| && a[j] == b[0];
    if i > 0 && j > 0 {
      BeyondTotal(a[0], b[0]);
    }
  }

  // ----------------------------------------------------------------------- pages

  /** All filtered documents of the log, in order. */
  ghost function Listing(col: Collection, logId: string, q: Query, cursor: Option<Cursor>): seq<Doc>
    requires Keyed(col)
  {
    Sorted(Matching(col, logId, q, cursor))
  }

  /** The view is one the caller asked for: every filter that is given is met. */
  predicate Asked(q: Query, v: View) {
    && (|q.status| > 0 ==> v.status in q.status)
    && (q.kind.Some? ==> q.kind == Some(v.kind))
    && (q.requestedBy.Some? ==> q.requestedBy == Some(v.requestedBy))
    && (q.awaiting.Some? ==> exists i :: 0 <= i < |v.pendingFor| && v.pendingFor[i] == q.awaiting.value)
    && forall f :: f in q.subjectMatch ==>
         v.subject.Obj? && f in v.subject.fields && v.subject.fields[f] == q.subjectMatch[f]
  }

  /** A listing holds exactly this log's documents that were asked for and lie beyond the cursor, by
      creation time and then by id, each once. */
  lemma ListingExactly(col: Collection, logId: string, q: Query, cursor: Option<Cursor>)
    requires Keyed(col)
    ensures var all := Listing(col, logId, q, cursor);
            && (forall d :: d in all <==>
                 && d.id in col && col[d.id] == d && d.logId == logId && Asked(q, d.view)
                 && (cursor.Some? ==> Precedes(cursor.value, Cursor(d.view.createdAt, d.id))))
            && forall i, j :: 0 <= i < j < |all| ==>
                 Precedes(Cursor(all[i].view.createdAt, all[i].id), Cursor(all[j].view.createdAt, all[j].id))
  {
    hide Sorted, StrLe;
    var all := Listing(col, logId, q, cursor);
    forall d: Doc
      ensures Asked(q, d.view) && d.logId == logId <==> Matches(logId, q, d)
    {
      MatchesExactly(logId, q, d);
    }
    forall i, j | 0 <= i < j < |all|
      ensures Precedes(Cursor(all[i].view.createdAt, all[i].id), Cursor(all[j].view.createdAt, all[j].id))
    {
      assert Beyond(all[j], Place(all[i]));
    }
  }

  /** Earlier, or at the same time with a smaller id; as strings. */
  predicate Precedes(a: Cursor, b: Cursor) {
    if a.createdAt == b.createdAt then a.id != b.id && StrLe(a.id, b.id) else StrLe(a.createdAt, b.createdAt)
  }

  lemma MatchesExactly(logId: string, q: Query, d: Doc)
    ensures Asked(q, d.view) && d.logId == logId <==> Matches(logId, q, d)
  {
    if q.subjectMatch != map[] {
      var f :| f in q.subjectMatch;
    }
  }

  function Views(docs: seq<Doc>): (r: seq<View>)
    ensures |r| == |docs| && forall i :: 0 <= i < |r| ==> r[i] == docs[i].view
  {
    if docs == [] then [] else [docs[0].view] + Views(docs[1..])
  }

  /** The page over the documents found: one more than `limit` tells whether there is a next. */
  function PageOver(found: seq<Doc>, limit: nat): Page
    requires limit >= 1
  {
    if |found| > limit then Page(Views(found[..limit]), Some(Place(found[limit - 1]))) else Page(Views(found), None)
  }

  lemma RestInOrder(all: seq<Doc>, k: nat)
    requires InOrder(all) && k < |all|
    ensures InOrder(all[k + 1..])
    ensures forall d :: d in all[k + 1..] <==> d in all && Beyond(d, Place(all[k]))
  {
    hide Beyond;
    var rest := all[k + 1..];
    assert forall i :: 0 <= i < |rest| ==> rest[i] == all[k + 1 + i];
    forall d | d in all && Beyond(d, Place(all[k]))
      ensures d in rest
    {
      var i :| 0 <= i < |all| && all[i] == d;
      BeyondTotal(d, all[k]);
      if i > k {
        assert rest[i - k - 1] == d;
      }
    }
  }

  /** What lies beyond the `k`-th document of a listing is the rest of it. */
  lemma BeyondIsRest(col: Collection, logId: string, q: Query, cursor: Option<Cursor>, k: nat)
    requires Keyed(col) && k < |Listing(col, logId, q, cursor)|
    ensures Listing(col, logId, q, Some(Place(Listing(col, logId, q, cursor)[k]))) == Listing(col, logId, q, cursor)[k + 1..]
  {
    hide Beyond, Matches, InOrder;
    var all := Listing(col, logId, q, cursor);
    var c := Place(all[k]);
    RestInOrder(all, k);
    forall d
      ensures d in Matching(col, logId, q, Some(c)) <==> d in all && Beyond(d, c)
    {
      if d in Matching(col, logId, q, Some(c)) {
        StillBeyond(col, logId, q, cursor, all[k], d);
      }
    }
    OrderIsUnique(Listing(col, logId, q, Some(c)), all[k + 1..]);
  }

  /** Beyond a document of the listing is still in the listing. */
  lemma StillBeyond(col: Collection, logId: string, q: Query, cursor: Option<Cursor>, at: Doc, d: Doc)
    requires at in Matching(col, logId, q, cursor) && d in Matching(col, logId, q, Some(Place(at)))
    ensures d in Matching(col, logId, q, cursor)
  {
    hide Matches, StrLe;
    if cursor.Some? {
      LtTransitive(cursor.value.createdAt, at.view.createdAt, d.view.createdAt);
      LtTransitive(cursor.value.id, at.id, d.id);
    }
  }

  /** The pages a client gets by following cursors over a collection that does not change. */
  ghost function Follow(col: Collection, logId: string, q: Query, cursor: Option<Cursor>, limit: nat): seq<Page>
    requires Keyed(col) && limit >= 1
    decreases |Listing(col, logId, q, cursor)|
  {
    var found := Listing(col, logId, q, cursor);
    var page := PageOver(found, limit);
    if page.next.None? then [page]
    else
      BeyondIsRest(col, logId, q, cursor, limit - 1);
      [page] + Follow(col, logId, q, page.next, limit)
  }

  function Joined(pages: seq<Page>): seq<View> {
    if pages == [] then [] else pages[0].items + Joined(pages[1..])
  }

  /** Pages needed for `m` items: at least one, and the last may be short. */
  function PagesFor(m: nat, limit: nat): nat
    requires limit >= 1
  {
    if m <= limit then 1 else 1 + PagesFor(m - limit, limit)
  }

  lemma ViewsConcat(a: seq<Doc>, b: seq<Doc>)
    ensures Views(a + b) == Views(a) + Views(b)
  {
  }

  /** One page, then the pages of the rest. */
  lemma FollowStep(col: Collection, logId: string, q: Query, cursor: Option<Cursor>, limit: nat)
    requires Keyed(col) && limit >= 1
    ensures var found := Listing(col, logId, q, cursor);
            if |found| <= limit then Follow(col, logId, q, cursor, limit) == [Page(Views(found), None)]
            else
              var next := Some(Place(found[limit - 1]));
              && Listing(col, logId, q, next) == found[limit..]
              && Follow(col, logId, q, cursor, limit) == [Page(Views(found[..limit]), next)] + Follow(col, logId, q, next, limit)
  {
    hide Listing;
    var found := Listing(col, logId, q, cursor);
    if |found| > limit {
      BeyondIsRest(col, logId, q, cursor, limit - 1);
    }
  }

  /** Following the cursors yields exactly the filtered views, in order, each once, in as many pages
      as it takes, all but the last full. */
  lemma {:induction false} PagesAreTheListing(col: Collection, logId: string, q: Query, cursor: Option<Cursor>, limit: nat)
    requires Keyed(col) && limit >= 1
    ensures var pages, found := Follow(col, logId, q, cursor, limit), Listing(col, logId, q, cursor);
            && Joined(pages) == Views(found)
            && |pages| == PagesFor(|found|, limit)
            && forall i :: 0 <= i < |pages| ==> (i < |pages| - 1 ==> |pages[i].items| == limit) && |pages[i].items| <= limit
    decreases |Listing(col, logId, q, cursor)|
  {
    hide Listing, Follow;
    var found := Listing(col, logId, q, cursor);
    FollowStep(col, logId, q, cursor, limit);
    if |found| > limit {
      var page := Page(Views(found[..limit]), Some(Place(found[limit - 1])));
      PagesAreTheListing(col, logId, q, page.next, limit);
      var rest := Follow(col, logId, q, page.next, limit);
      assert ([page] + rest)[1..] == rest;
      ViewsConcat(found[..limit], found[limit..]);
      assert found == found[..limit] + found[limit..];
    } else {
      assert [Page(Views(found), None)][1..] == [];
    }
  }

  /** That is `max(1, ceil(m / limit))` pages: the least positive number of pages with room for all. */
  lemma {:induction false} PagesForIsCeiling(m: nat, limit: nat)
    requires limit >= 1
    ensures var p := PagesFor(m, limit);
            p >= 1 && p * limit >= m && (p > 1 ==> (p - 1) * limit < m)
    decreases m
  {
    if m > limit {
      PagesForIsCeiling(m - limit, limit);
      var p := PagesFor(m - limit, limit);
      assert (p + 1) * limit == p * limit + limit;
      assert p * limit == (p - 1) * limit + limit;
    }
  }

  // ------------------------------------------------------------------- the store

  function DocId(logId: string, requestId: string): string {
    logId + ":" + requestId
  }

  /** Documents to scan in any order, sorted by insertion as they come. */
  function Insert(s: seq<Doc>, d: Doc): (r: seq<Doc>)
    ensures |r| == |s| + 1
  {
    if s == [] || Beyond(s[0], Place(d)) then [d] + s else [s[0]] + Insert(s[1..], d)
  }

  lemma {:induction false} InsertKeepsOrder(s: seq<Doc>, d: Doc)
    requires InOrder(s) && forall e :: e in s ==> e.id != d.id
    ensures InOrder(Insert(s, d)) && forall e :: e in Insert(s, d) <==> e in s || e == d
  {
    hide Beyond, InOrder;
    if s == [] {
      PrependInOrder(d, s);
    } else if Beyond(s[0], Place(d)) {
      AllBeyond(s, d);
      PrependInOrder(d, s);
    } else {
      TailElements(s);
      assert s == [s[0]] + s[1..] && s[0] in s;
      InsertKeepsOrder(s[1..], d);
      BeyondTotal(s[0], d);
      LaterThanFirst(s);
      PrependInOrder(s[0], Insert(s[1..], d));
    }
  }

  lemma LaterThanFirst(s: seq<Doc>)
    requires InOrder(s) && s != []
    ensures forall e :: e in s[1..] ==> Beyond(e, Place(s[0]))
  {
    hide Beyond;
    TailIsLater(s);
  }

  lemma AllBeyond(s: seq<Doc>, d: Doc)
    requires InOrder(s) && s != [] && Beyond(s[0], Place(d))
    ensures forall e :: e in s ==> Beyond(e, Place(d))
  {
    hide Beyond, InOrder;
    LaterThanFirst(s);
    assert s == [s[0]] + s[1..];
    forall e | e in s[1..]
      ensures Beyond(e, Place(d))
    {
      BeyondTransitive(d, s[0], e);
    }
  }

  lemma PrependInOrder(d: Doc, s: seq<Doc>)
    requires InOrder(s) && forall e :: e in s ==> Beyond(e, Place(d))
    ensures InOrder([d] + s)
  {
    hide Beyond;
    forall i, j | 0 <= i < j < |[d] + s|
      ensures Beyond(([d] + s)[j], Place(([d] + s)[i]))
    {
      assert s[j - 1] in s;
    }
  }

  class MongoProjectionStore {
    const logId: string
    var col: Collection

    ghost predicate Valid()
      reads this
    {
      Keyed(col)
    }

    constructor (logId: string, shared: Collection)
      requires Keyed(shared)
      ensures Valid() && this.logId == logId && col == shared
    {
      this.logId := logId;
      col := shared;
    }

    /** `upsert`: update the document if it is not ahead; else try to insert, which the unique id
        refuses when a document is there, and that refusal is ignored. */
    method Put(v: View)
      requires Valid()
      modifies this
      ensures Valid()
      ensures var id := DocId(logId, v.requestId);
              col == if id in old(col) && old(col)[id].view.lastSeq > v.lastSeq then old(col)
                     else old(col)[id := Doc(id, logId, v)]
    {
      var id := DocId(logId, v.requestId);
      if id in col && col[id].view.lastSeq <= v.lastSeq {
        col := col[id := Doc(id, logId, v)];
      } else if id !in col {
        col := col[id := Doc(id, logId, v)];
      }
    }

    /** Only this log's documents go. */
    method Clear()
      requires Valid()
      modifies this
      ensures Valid()
      ensures forall id :: id in col <==> id in old(col) && old(col)[id].logId != logId
      ensures forall id :: id in col ==> col[id] == old(col)[id]
    {
      col := map id | id in col && col[id].logId != logId :: col[id];
    }

    /** The sorted documents matching the query beyond the cursor: what the database returns before
        its limit. */
    method Find(q: Query, cursor: Option<Cursor>) returns (found: seq<Doc>)
      requires Valid()
      ensures found == Listing(col, logId, q, cursor)
    {
      hide Matches, Beyond;
      found := SortDocs(Matching(col, logId, q, cursor));
      OrderIsUnique(found, Listing(col, logId, q, cursor));
    }

    /** `query`: fetch one more than the limit, trim, and leave a cursor if something was trimmed. */
    method RunQuery(q: Query, cursor: Option<Cursor>, limit: nat) returns (page: Page)
      requires Valid() && limit >= 1
      ensures page == PageOver(Listing(col, logId, q, cursor), limit)
    {
      hide Listing, PageOver;
      var found := Find(q, cursor);
      var docs := if |found| > limit + 1 then found[..limit + 1] else found;
      TrimmedPage(found, docs, limit);
      var next := None;
      if |docs| > limit {
        docs := docs[..limit];
        var last := docs[|docs| - 1];
        next := Some(Cursor(last.view.createdAt, last.id));
      }
      return Page(Views(docs), next);
    }
  }

  /** Sorting by insertion, in whatever order the documents come. */
  method SortDocs(all: set<Doc>) returns (found: seq<Doc>)
    requires UniqueIds(all)
    ensures InOrder(found) && forall d :: d in found <==> d in all
  {
    hide InOrder, Insert;
    var left := all;
    found := [];
    NothingInOrder();
    while left != {}
      invariant left <= all
      invariant InOrder(found) && forall d :: d in found <==> d in all && d !in left
      decreases left
    {
      var d :| d in left;
      InsertKeepsOrder(found, d);
      found := Insert(found, d);
      left := left - {d};
    }
  }

  lemma NothingInOrder()
    ensures InOrder([])
  {
  }

  /** One document more than the limit is enough to know the page. */
  lemma TrimmedPage(found: seq<Doc>, docs: seq<Doc>, limit: nat)
    requires limit >= 1 && docs == if |found| > limit + 1 then found[..limit + 1] else found
    ensures PageOver(found, limit)
         == if |docs| > limit then Page(Views(docs[..limit]), Some(Cursor(docs[limit - 1].view.createdAt, docs[limit - 1].id)))
            else Page(Views(docs), None)
  {
    hide Views;
    if |docs| > limit {
      assert docs[..limit] == found[..limit];
    }
  }
}
