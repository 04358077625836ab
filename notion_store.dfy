/**
 * `NotionRepository.kt` against a model of the Notion workspace it talks to: pages held in
 * databases, queried by the exact text of a title property, created with a key and a default
 * name when the query finds nothing, and patched with a single-valued box relation.
 */
module NotionStore {
  import opened Wrappers

  /** Page ids are minted by Notion; the model numbers them in creation order. */
  type PageId = nat

  /**
   * A page property as the app reads and writes it: the plain text of each title or rich-text
   * segment, or the ids of the related pages.
   */
  datatype Property =
    | TitleProperty(title: seq<string>)
    | RichTextProperty(richText: seq<string>)
    | RelationProperty(relation: seq<PageId>)

  datatype Page = Page(id: PageId, properties: map<string, Property>, url: string)

  /** A page together with the database it was created in. */
  datatype Stored = Stored(database: string, page: Page)

  /** What Notion holds: the databases, every page in query order, and the id the next page gets. */
  datatype Workspace = Workspace(databases: set<string>, pages: seq<Stored>, nextId: PageId)

  /** How Notion answers one request: it answers, or the call throws an exception whose message may be null. */
  datatype Reply = Answered | Fails(message: Option<string>)

  /** What a repository call returns, or the message of the exception it throws. */
  datatype Outcome<T> = Success(value: T) | Failure(message: Option<string>)

  /** The error for a request naming a database or page that Notion does not hold. */
  const NotFound: Option<string> := Some("object_not_found")

  /** The relation column of a bag that names the box it is in. */
  const LocationColumn := "現在の箱"

  const UrlPrefix := "https://www.notion.so/"

  /** The plain text of a title: its segments one after the other. */
  function Joined(texts: seq<string>): string {
    if texts == [] then "" else Joined(texts[..|texts| - 1]) + texts[|texts| - 1]
  }

  /** The filter of both queries: the title property `column` reads exactly `uid`. */
  predicate TitleEquals(p: Page, column: string, uid: string) {
    column in p.properties && p.properties[column].TitleProperty? && Joined(p.properties[column].title) == uid
  }

  predicate Hit(s: Stored, database: string, column: string, uid: string) {
    s.database == database && TitleEquals(s.page, column, uid)
  }

  /** The results of a database query: the pages of `database` that pass the filter, in store order. */
  function Query(pages: seq<Stored>, database: string, column: string, uid: string): (r: seq<Page>)
    ensures forall p :: p in r ==> TitleEquals(p, column, uid) && Stored(database, p) in pages
    ensures r == [] <==> forall i :: 0 <= i < |pages| ==> !Hit(pages[i], database, column, uid)
  {
    if pages == [] then []
    else
      var last := pages[|pages| - 1];
      Query(pages[..|pages| - 1], database, column, uid) + if Hit(last, database, column, uid) then [last.page] else []
  }

  /** Position `i` holds the earliest page in the store that passes the filter. */
  predicate FirstHit(pages: seq<Stored>, i: int, database: string, column: string, uid: string) {
    && 0 <= i < |pages| && Hit(pages[i], database, column, uid)
    && forall j :: 0 <= j < i ==> !Hit(pages[j], database, column, uid)
  }

  lemma FirstHitExtend(pages: seq<Stored>, i: nat, database: string, column: string, uid: string)
    requires pages != [] && FirstHit(pages[..|pages| - 1], i, database, column, uid)
    ensures FirstHit(pages, i, database, column, uid)
  {
    assert forall j :: 0 <= j <= i ==> pages[j] == pages[..|pages| - 1][j];
  }

  /** The first result of a query over all but the last page stays the first when the last page is added. */
  lemma QueryFirstKept(pages: seq<Stored>, database: string, column: string, uid: string, i: nat)
    requires pages != [] && Query(pages[..|pages| - 1], database, column, uid) != []
    requires FirstHit(pages[..|pages| - 1], i, database, column, uid)
    requires pages[i].page == Query(pages[..|pages| - 1], database, column, uid)[0]
    ensures FirstHit(pages, i, database, column, uid) && pages[i].page == Query(pages, database, column, uid)[0]
  {
    FirstHitExtend(pages, i, database, column, uid);
  }

  /** When no page but the last passes the filter, the last is the first result. */
  lemma QueryFirstLast(pages: seq<Stored>, database: string, column: string, uid: string)
    requires pages != [] && Query(pages[..|pages| - 1], database, column, uid) == []
    requires Query(pages, database, column, uid) != []
    ensures FirstHit(pages, |pages| - 1, database, column, uid)
    ensures pages[|pages| - 1].page == Query(pages, database, column, uid)[0]
  {
    var init := pages[..|pages| - 1];
    assert forall j :: 0 <= j < |init| ==> pages[j] == init[j];
  }

  /** The position of the first result of a query. */
  lemma {:induction false} QueryFirstIndex(pages: seq<Stored>, database: string, column: string, uid: string)
    returns (i: nat)
    requires Query(pages, database, column, uid) != []
    ensures FirstHit(pages, i, database, column, uid) && pages[i].page == Query(pages, database, column, uid)[0]
    decreases |pages|
  {
    var init := pages[..|pages| - 1];
    if Query(init, database, column, uid) != [] {
      i := QueryFirstIndex(init, database, column, uid);
      QueryFirstKept(pages, database, column, uid, i);
    } else {
      QueryFirstLast(pages, database, column, uid);
      i := |pages| - 1;
    }
  }

  /** The first result of a query is the earliest page in the store that passes the filter. */
  lemma QueryFirst(pages: seq<Stored>, database: string, column: string, uid: string)
    requires Query(pages, database, column, uid) != []
    ensures exists i :: FirstHit(pages, i, database, column, uid) && pages[i].page == Query(pages, database, column, uid)[0]
  {
    var i := QueryFirstIndex(pages, database, column, uid);
  }

  /** A page added at the end of the store comes after every earlier result of the same query. */
  lemma QueryAppend(pages: seq<Stored>, s: Stored, database: string, column: string, uid: string)
    ensures Query(pages + [s], database, column, uid)
      == Query(pages, database, column, uid) + if Hit(s, database, column, uid) then [s.page] else []
  {
    assert (pages + [s])[..|pages|] == pages;
  }

  /** `queryDatabase` with the title filter: the results, or the exception the request throws. */
  function QueryDatabase(w: Workspace, database: string, column: string, uid: string, reply: Reply): (r: Outcome<seq<Page>>)
    ensures r.Success? <==> reply.Answered? && database in w.databases
    ensures r.Success? ==> r.value == Query(w.pages, database, column, uid)
  {
    if reply.Fails? then Failure(reply.message)
    else if database !in w.databases then Failure(NotFound)
    else Success(Query(w.pages, database, column, uid))
  }

  /** The decimal digits of `n`. */
  function Decimal(n: nat): (r: string)
    ensures r != [] && forall i :: 0 <= i < |r| ==> '0' <= r[i] <= '9'
  {
    var digit := (48 + n % 10) as char;
    if n < 10 then [digit] else Decimal(n / 10) + [digit]
  }

  /**
   * The page `createPage` makes: its key column titled `uid` and its name column holding
   * `nameValue` as rich text. When the two columns have the same name the second entry wins, as
   * in Kotlin's `mapOf`.
   */
  function NewPage(id: PageId, keyColumn: string, uid: string, nameColumn: string, nameValue: string): (p: Page)
    ensures p.id == id
    ensures p.properties.Keys == {keyColumn, nameColumn}
    ensures p.properties[nameColumn] == RichTextProperty([nameValue])
    ensures keyColumn != nameColumn ==> TitleEquals(p, keyColumn, uid)
  {
    var p := Page(id, map[keyColumn := TitleProperty([uid]), nameColumn := RichTextProperty([nameValue])], UrlPrefix + Decimal(id));
    assert Joined([uid]) == Joined([]) + uid;
    p
  }

  /** Every page is in a database Notion holds, and page ids are distinct and below the next id to mint. */
  predicate Consistent(w: Workspace) {
    && (forall i :: 0 <= i < |w.pages| ==> w.pages[i].page.id < w.nextId && w.pages[i].database in w.databases)
    && (forall i, j :: 0 <= i < j < |w.pages| ==> w.pages[i].page.id != w.pages[j].page.id)
  }

  /**
   * `findOrCreatePage`: the first result of the title query when there is one; otherwise one new
   * page in the database, with the key and the default name. Nothing is created when a request
   * fails.
   */
  function FindOrCreate(w: Workspace, database: string, keyColumn: string, uid: string,
                        nameColumn: string, nameValue: string, query: Reply, create: Reply): (r: (Outcome<Page>, Workspace))
    ensures r.1 == w || (r.0.Success? && r.1 == w.(pages := w.pages + [Stored(database, r.0.value)], nextId := w.nextId + 1))
    ensures r.0.Failure? <==>
      || query.Fails? || database !in w.databases
      || (create.Fails? && forall i :: 0 <= i < |w.pages| ==> !Hit(w.pages[i], database, keyColumn, uid))
    ensures r.1 != w <==>
      && query.Answered? && database in w.databases && create.Answered?
      && forall i :: 0 <= i < |w.pages| ==> !Hit(w.pages[i], database, keyColumn, uid)
    ensures r.1 != w ==> r.0.value == NewPage(w.nextId, keyColumn, uid, nameColumn, nameValue)
    ensures r.1 != w && Consistent(w) ==> forall i :: 0 <= i < |w.pages| ==> w.pages[i].page.id != r.0.value.id
    ensures r.0.Success? ==> Stored(database, r.0.value) in r.1.pages
    ensures r.0.Success? && keyColumn != nameColumn ==> TitleEquals(r.0.value, keyColumn, uid)
  {
    match QueryDatabase(w, database, keyColumn, uid, query)
    case Failure(m) => (Failure(m), w)
    case Success(results) =>
      if results != [] then (Success(results[0]), w)
      else if create.Fails? then (Failure(create.message), w)
      else
        var p := NewPage(w.nextId, keyColumn, uid, nameColumn, nameValue);
        (Success(p), w.(pages := w.pages + [Stored(database, p)], nextId := w.nextId + 1))
  }

  /** `findOrCreatePage` keeps the workspace consistent: a page it creates gets a fresh id in a database Notion holds. */
  lemma FindOrCreateConsistent(w: Workspace, database: string, keyColumn: string, uid: string,
                               nameColumn: string, nameValue: string, query: Reply, create: Reply)
    requires Consistent(w)
    ensures Consistent(FindOrCreate(w, database, keyColumn, uid, nameColumn, nameValue, query, create).1)
  {
    var (r, w') := FindOrCreate(w, database, keyColumn, uid, nameColumn, nameValue, query, create);
    if w' != w {
      assert w'.pages == w.pages + [Stored(database, r.value)];
      assert w'.pages[|w.pages|].page.id == w.nextId;
    }
  }

  /** When the query finds pages, `findOrCreatePage` returns the earliest of them and creates nothing. */
  lemma FindOrCreateFinds(w: Workspace, database: string, keyColumn: string, uid: string,
                          nameColumn: string, nameValue: string, create: Reply, i: nat)
    requires database in w.databases
    requires FirstHit(w.pages, i, database, keyColumn, uid)
    ensures FindOrCreate(w, database, keyColumn, uid, nameColumn, nameValue, Answered, create) == (Success(w.pages[i].page), w)
  {
    var results := Query(w.pages, database, keyColumn, uid);
    QueryFirst(w.pages, database, keyColumn, uid);
    var k :| FirstHit(w.pages, k, database, keyColumn, uid) && w.pages[k].page == results[0];
    assert !(k < i) && !(i < k);
  }

  /**
   * Two `findOrCreatePage` calls in a row with the same arguments return the same page, and the
   * second one creates nothing.
   */
  lemma FindOrCreateIdempotent(w: Workspace, database: string, keyColumn: string, uid: string,
                               nameColumn: string, nameValue: string, query: Reply, create: Reply, create2: Reply)
    requires keyColumn != nameColumn && Consistent(w)
    requires FindOrCreate(w, database, keyColumn, uid, nameColumn, nameValue, query, create).0.Success?
    ensures var (r, w') := FindOrCreate(w, database, keyColumn, uid, nameColumn, nameValue, query, create);
      FindOrCreate(w', database, keyColumn, uid, nameColumn, nameValue, Answered, create2) == (r, w')
  {
    var (r, w') := FindOrCreate(w, database, keyColumn, uid, nameColumn, nameValue, query, create);
    if w' != w {
      assert Query(w.pages, database, keyColumn, uid) == [];
      QueryAppend(w.pages, Stored(database, r.value), database, keyColumn, uid);
    }
  }

  /** `getPage`: the first result of the same title query, or null when there is none. */
  function GetPageResult(w: Workspace, database: string, keyColumn: string, uid: string, reply: Reply): (r: Outcome<Option<Page>>)
    ensures r.Success? <==> reply.Answered? && database in w.databases
    ensures r.Success? ==> (r.value.None? <==> forall i :: 0 <= i < |w.pages| ==> !Hit(w.pages[i], database, keyColumn, uid))
    ensures r.Success? && r.value.Some? ==> TitleEquals(r.value.value, keyColumn, uid)
  {
    match QueryDatabase(w, database, keyColumn, uid, reply)
    case Failure(m) => Failure(m)
    case Success(results) => Success(if results == [] then None else Some(results[0]))
  }

  /** After `findOrCreatePage` succeeds, `getPage` with the same filter finds that very page. */
  lemma GetAfterFindOrCreate(w: Workspace, database: string, keyColumn: string, uid: string,
                             nameColumn: string, nameValue: string, query: Reply, create: Reply)
    requires keyColumn != nameColumn && Consistent(w)
    requires FindOrCreate(w, database, keyColumn, uid, nameColumn, nameValue, query, create).0.Success?
    ensures var (r, w') := FindOrCreate(w, database, keyColumn, uid, nameColumn, nameValue, query, create);
      GetPageResult(w', database, keyColumn, uid, Answered) == Success(Some(r.value))
  {
    FindOrCreateIdempotent(w, database, keyColumn, uid, nameColumn, nameValue, query, create, Answered);
  }

  /** The first position of the page with id `id`, if Notion holds it. */
  function IndexOfPage(pages: seq<Stored>, id: PageId): (r: Option<nat>)
    ensures r.None? <==> forall i :: 0 <= i < |pages| ==> pages[i].page.id != id
    ensures r.Some? ==> r.value < |pages| && pages[r.value].page.id == id
  {
    if pages == [] then None
    else if pages[|pages| - 1].page.id == id then
      match IndexOfPage(pages[..|pages| - 1], id)
      case None => Some(|pages| - 1)
      case Some(i) => Some(i)
    else IndexOfPage(pages[..|pages| - 1], id)
  }

  /** The page a bag gets once its box relation is set to `boxId`. */
  function Relocated(p: Page, boxId: PageId): Page {
    p.(properties := p.properties[LocationColumn := RelationProperty([boxId])])
  }

  /**
   * `updateHukuroLocation`: the bag page's box relation set to the one box, replacing whatever
   * it held; the patched page is returned.
   */
  function UpdateLocation(w: Workspace, bagId: PageId, boxId: PageId, reply: Reply): (r: (Outcome<Page>, Workspace))
    ensures r.0.Success? <==> reply.Answered? && exists i :: 0 <= i < |w.pages| && w.pages[i].page.id == bagId
    ensures r.0.Failure? ==> r.1 == w
    ensures r.0.Success? ==>
      && |r.1.pages| == |w.pages| && r.1.databases == w.databases && r.1.nextId == w.nextId
      && r.0.value.id == bagId && LocationColumn in r.0.value.properties
      && r.0.value.properties[LocationColumn] == RelationProperty([boxId])
    ensures r.0.Success? && Consistent(w) ==>
      && (forall i :: 0 <= i < |w.pages| && w.pages[i].page.id != bagId ==> r.1.pages[i] == w.pages[i])
      && (forall i :: 0 <= i < |w.pages| && w.pages[i].page.id == bagId ==>
            && r.1.pages[i] == Stored(w.pages[i].database, r.0.value)
            && r.0.value == Relocated(w.pages[i].page, boxId))
    ensures Consistent(w) ==> Consistent(r.1)
  {
    if reply.Fails? then (Failure(reply.message), w)
    else match IndexOfPage(w.pages, bagId)
      case None => (Failure(NotFound), w)
      case Some(i) =>
        var s := w.pages[i];
        var patched := Relocated(s.page, boxId);
        (Success(patched), w.(pages := w.pages[i := Stored(s.database, patched)]))
  }

  /** Patching a page that Notion holds at position `k` stores the relocated page there. */
  lemma UpdateLocationAt(w: Workspace, k: nat, boxId: PageId, patch: Reply)
    requires Consistent(w) && k < |w.pages| && patch.Answered?
    ensures var (u, w') := UpdateLocation(w, w.pages[k].page.id, boxId, patch);
      && u == Success(Relocated(w.pages[k].page, boxId)) && w'.databases == w.databases
      && k < |w'.pages| && w'.pages[k] == Stored(w.pages[k].database, u.value)
  {
  }

  /** Setting the location leaves the title of every other column as it was. */
  lemma RelocatedKeepsTitle(p: Page, boxId: PageId, column: string, uid: string)
    requires column != LocationColumn
    ensures TitleEquals(Relocated(p, boxId), column, uid) == TitleEquals(p, column, uid)
  {
  }

  /** Where `findOrCreatePage` puts the page it returns. */
  lemma FindOrCreateStored(w: Workspace, database: string, keyColumn: string, uid: string,
                           nameColumn: string, nameValue: string, query: Reply, create: Reply) returns (k: nat)
    requires FindOrCreate(w, database, keyColumn, uid, nameColumn, nameValue, query, create).0.Success?
    ensures var (r, w') := FindOrCreate(w, database, keyColumn, uid, nameColumn, nameValue, query, create);
      k < |w'.pages| && w'.pages[k] == Stored(database, r.value)
  {
    var (r, w') := FindOrCreate(w, database, keyColumn, uid, nameColumn, nameValue, query, create);
    k :| 0 <= k < |w'.pages| && w'.pages[k] == Stored(database, r.value);
  }

  /**
   * Storing a bag in a box: once the bag is found or created and the patch succeeds, the
   * workspace holds the bag's page, still titled with its key, with the box as its only
   * location.
   */
  lemma FindThenRelate(w: Workspace, database: string, keyColumn: string, uid: string, nameColumn: string,
                       nameValue: string, query: Reply, create: Reply, boxId: PageId, patch: Reply)
    requires Consistent(w) && keyColumn != nameColumn && keyColumn != LocationColumn
    requires FindOrCreate(w, database, keyColumn, uid, nameColumn, nameValue, query, create).0.Success?
    requires patch.Answered?
    ensures var (r, w1) := FindOrCreate(w, database, keyColumn, uid, nameColumn, nameValue, query, create);
      var (u, w2) := UpdateLocation(w1, r.value.id, boxId, patch);
      && u.Success? && u.value.id == r.value.id && w2.databases == w.databases
      && Stored(database, u.value) in w2.pages && TitleEquals(u.value, keyColumn, uid)
      && LocationColumn in u.value.properties && u.value.properties[LocationColumn] == RelationProperty([boxId])
  {
    var (r, w1) := FindOrCreate(w, database, keyColumn, uid, nameColumn, nameValue, query, create);
    FindOrCreateConsistent(w, database, keyColumn, uid, nameColumn, nameValue, query, create);
    var k := FindOrCreateStored(w, database, keyColumn, uid, nameColumn, nameValue, query, create);
    UpdateLocationAt(w1, k, boxId, patch);
    RelocatedKeepsTitle(r.value, boxId, keyColumn, uid);
  }

  /**
   * The Notion workspace behind `NotionRepository`: each call reads or changes it as the
   * functions above say.
   */
  class NotionRepository {
    var workspace: Workspace

    predicate Valid()
      reads this
    {
      Consistent(workspace)
    }

    constructor(databases: set<string>)
      ensures workspace == Workspace(databases, [], 0)
      ensures Valid()
    {
      workspace := Workspace(databases, [], 0);
    }

    /** `service.createPage`: one new page in `database`, or the exception the request throws. */
    method CreatePage(database: string, keyColumn: string, uid: string, nameColumn: string, nameValue: string, reply: Reply)
      returns (r: Outcome<Page>)
      requires database in workspace.databases
      modifies this
      ensures reply.Fails? ==> r == Failure(reply.message) && workspace == old(workspace)
      ensures reply.Answered? ==>
        && r == Success(NewPage(old(workspace).nextId, keyColumn, uid, nameColumn, nameValue))
        && workspace == old(workspace).(pages := old(workspace).pages + [Stored(database, r.value)], nextId := old(workspace).nextId + 1)
    {
      if reply.Fails? {
        return Failure(reply.message);
      }
      var page := NewPage(workspace.nextId, keyColumn, uid, nameColumn, nameValue);
      workspace := workspace.(pages := workspace.pages + [Stored(database, page)], nextId := workspace.nextId + 1);
      r := Success(page);
    }

    method FindOrCreatePage(databaseId: string, pkColumnName: string, uid: string,
                            defaultNameColumn: string, defaultNameValue: string, query: Reply, create: Reply)
      returns (r: Outcome<Page>)
      modifies this
      ensures (r, workspace) == FindOrCreate(old(workspace), databaseId, pkColumnName, uid, defaultNameColumn, defaultNameValue, query, create)
      ensures old(Valid()) ==> Valid()
    {
      var queryRes := QueryDatabase(workspace, databaseId, pkColumnName, uid, query);
      if queryRes.Failure? {
        return Failure(queryRes.message);
      }
      if queryRes.value != [] {
        return Success(queryRes.value[0]);
      }
      r := CreatePage(databaseId, pkColumnName, uid, defaultNameColumn, defaultNameValue, create);
      if old(Valid()) {
        FindOrCreateConsistent(old(workspace), databaseId, pkColumnName, uid, defaultNameColumn, defaultNameValue, query, create);
      }
    }

    method UpdateHukuroLocation(hukuroPageId: PageId, hakoPageId: PageId, reply: Reply) returns (r: Outcome<Page>)
      modifies this
      ensures (r, workspace) == UpdateLocation(old(workspace), hukuroPageId, hakoPageId, reply)
      ensures old(Valid()) ==> Valid()
    {
      if reply.Fails? {
        return Failure(reply.message);
      }
      var i := IndexOfPage(workspace.pages, hukuroPageId);
      if i.None? {
        return Failure(NotFound);
      }
      var s := workspace.pages[i.value];
      var updated := Relocated(s.page, hakoPageId);
      workspace := workspace.(pages := workspace.pages[i.value := Stored(s.database, updated)]);
      r := Success(updated);
    }

    /** `getPage` reads the workspace and changes nothing. */
    method GetPage(databaseId: string, pkColumnName: string, uid: string, reply: Reply) returns (r: Outcome<Option<Page>>)
      ensures r == GetPageResult(workspace, databaseId, pkColumnName, uid, reply)
    {
      var queryRes := QueryDatabase(workspace, databaseId, pkColumnName, uid, reply);
      if queryRes.Failure? {
        return Failure(queryRes.message);
      }
      r := Success(if queryRes.value == [] then None else Some(queryRes.value[0]));
    }
  }
}
