/**
 * Resource providers: what the resource handlers ask for (a page of
 * resources, a resource's contents, the templates, whether a URI exists),
 * and the provider that keeps everything in memory.
 */
module Provider {
  import opened Wrappers
  import opened Values
  import opened Errors
  import opened ResourceTypes
  import Dict

  /** The page size `listResources` uses when the caller gives none. */
  const DEFAULT_LIMIT: int := 100

  /** `['resources' => $items, 'nextCursor' => $nextCursor]`. */
  datatype ResourcePage = ResourcePage(resources: seq<ResourceItem>, nextCursor: Option<string>)

  /**
   * The provider interface as one snapshot of answers: each entry is one of
   * its methods, and an entry may throw. The handlers are written against
   * this, so a provider other than the in-memory one fits as well.
   */
  datatype ResourceSource = ResourceSource(
    listResources: Option<string> -> Outcome<ResourcePage>,
    readResource: string -> Outcome<seq<ResourceContent>>,
    listResourceTemplates: Outcome<seq<ResourceTemplate>>,
    resourceExists: string -> Outcome<bool>)

  /** The items that follow the first one whose uri is the cursor; none if no item has it. */
  function After(items: seq<ResourceItem>, cursor: string): (r: seq<ResourceItem>)
    ensures |r| < |items| || items == []
  {
    if items == [] then []
    else if items[0].uri == cursor then items[1..]
    else After(items[1..], cursor)
  }

  /**
   * `array_slice($items, 0, $limit)`: at most `limit` items from the front;
   * a negative limit drops that many items from the end instead.
   */
  function Slice(items: seq<ResourceItem>, limit: int): (r: seq<ResourceItem>)
    ensures r <= items
    ensures limit >= 0 ==> |r| == if limit < |items| then limit else |items|
    ensures limit < 0 ==> |r| == if |items| + limit > 0 then |items| + limit else 0
  {
    if limit >= 0 then (if limit < |items| then items[..limit] else items)
    else if |items| + limit > 0 then items[..|items| + limit]
    else []
  }

  /**
   * What `listResources($cursor, $limit)` returns for the stored items: the
   * items after the cursor, cut to the limit, and a next cursor when the page
   * is full and the provider holds more items than one page.
   */
  function ListPage(items: seq<ResourceItem>, cursor: Option<string>, limit: int): (r: ResourcePage)
    ensures r.nextCursor.Some? ==>
              r.resources != [] && |r.resources| == limit && |items| > limit && r.nextCursor.value == r.resources[|r.resources| - 1].uri
  {
    var after := if cursor.None? then items else After(items, cursor.value);
    var page := Slice(after, limit);
    var next := if |page| == limit && |items| > limit && page != [] then Some(page[|page| - 1].uri) else None;
    ResourcePage(page, next)
  }

  /** `readResource($uri)` over the stored contents: one content, or "Resource not found". */
  function ReadContents(contents: seq<(string, ResourceContent)>, uri: string): (r: Outcome<seq<ResourceContent>>)
    ensures r.Ok? <==> Dict.HasKey(contents, uri)
    ensures r.Ok? ==> r.value == [Dict.Get(contents, uri).value]
    ensures !r.Ok? ==> r == Throw(Exception(PlainException, "Resource not found: " + uri))
  {
    match Dict.Get(contents, uri)
    case Some(c) => Ok([c])
    case None => Throw(Exception(PlainException, "Resource not found: " + uri))
  }

  /** The uris of the items are pairwise different. */
  predicate DistinctUris(items: seq<ResourceItem>) {
    forall i, j :: 0 <= i < j < |items| ==> items[i].uri != items[j].uri
  }

  /** Every entry is stored under its own uri. */
  ghost predicate KeyedByUri(d: seq<(string, ResourceItem)>) {
    Dict.UniqueKeys(d) && forall u :: Dict.Get(d, u).Some? ==> Dict.Get(d, u).value.uri == u
  }

  /** Every template is stored under its own uri template. */
  ghost predicate KeyedByTemplate(d: seq<(string, ResourceTemplate)>) {
    Dict.UniqueKeys(d) && forall u :: Dict.Get(d, u).Some? ==> Dict.Get(d, u).value.uriTemplate == u
  }

  lemma PutKeyedByUri(d: seq<(string, ResourceItem)>, item: ResourceItem)
    requires KeyedByUri(d)
    ensures KeyedByUri(Dict.Put(d, item.uri, item))
  {
    var r := Dict.Put(d, item.uri, item);
    forall u | Dict.Get(r, u).Some?
      ensures Dict.Get(r, u).value.uri == u
    {
      if u != item.uri {
        assert Dict.Get(r, u) == Dict.Get(d, u);
      }
    }
  }

  lemma PutKeyedByTemplate(d: seq<(string, ResourceTemplate)>, t: ResourceTemplate)
    requires KeyedByTemplate(d)
    ensures KeyedByTemplate(Dict.Put(d, t.uriTemplate, t))
  {
    var r := Dict.Put(d, t.uriTemplate, t);
    forall u | Dict.Get(r, u).Some?
      ensures Dict.Get(r, u).value.uriTemplate == u
    {
      if u != t.uriTemplate {
        assert Dict.Get(r, u) == Dict.Get(d, u);
      }
    }
  }

  lemma ReadAfterPut(cs: seq<(string, ResourceContent)>, uri: string, content: ResourceContent)
    ensures ReadContents(Dict.Put(cs, uri, content), uri) == Ok([content])
    ensures forall u :: u != uri ==> ReadContents(Dict.Put(cs, uri, content), u) == ReadContents(cs, u)
  {
  }

  class InMemoryResourceProvider {
    var resources: seq<(string, ResourceItem)>
    var resourceTemplates: seq<(string, ResourceTemplate)>
    var resourceContents: seq<(string, ResourceContent)>

    ghost predicate Valid()
      reads this
    {
      KeyedByUri(resources) && KeyedByTemplate(resourceTemplates) && Dict.UniqueKeys(resourceContents)
    }

    constructor ()
      ensures Valid()
      ensures resources == [] && resourceTemplates == [] && resourceContents == []
    {
      resources, resourceTemplates, resourceContents := [], [], [];
    }

    /** `addResource($resource, $content)`: stores both under the resource's uri, replacing what was there. */
    method AddResource(resource: ResourceItem, content: ResourceContent)
      requires Valid()
      modifies this
      ensures Valid()
      ensures resources == Dict.Put(old(resources), resource.uri, resource)
      ensures resourceContents == Dict.Put(old(resourceContents), resource.uri, content)
      ensures resourceTemplates == old(resourceTemplates)
      ensures ResourceExists(resource.uri) && ReadResource(resource.uri) == Ok([content])
      ensures forall u :: u != resource.uri ==> ReadResource(u) == old(ReadResource(u))
    {
      PutKeyedByUri(resources, resource);
      ReadAfterPut(resourceContents, resource.uri, content);
      resources := Dict.Put(resources, resource.uri, resource);
      resourceContents := Dict.Put(resourceContents, resource.uri, content);
    }

    /** `addResourceTemplate($template)`: stores it under its uri template. */
    method AddResourceTemplate(template: ResourceTemplate)
      requires Valid()
      modifies this
      ensures Valid()
      ensures resourceTemplates == Dict.Put(old(resourceTemplates), template.uriTemplate, template)
      ensures resources == old(resources) && resourceContents == old(resourceContents)
    {
      PutKeyedByTemplate(resourceTemplates, template);
      resourceTemplates := Dict.Put(resourceTemplates, template.uriTemplate, template);
    }

    /**
     * `listResources($cursor, $limit)`: skips up to and including the item
     * whose uri is the cursor, keeps at most `limit` items and computes the
     * next cursor.
     */
    method ListResources(cursor: Option<string>, limit: int := DEFAULT_LIMIT) returns (page: ResourcePage)
      ensures page == ListPage(Dict.Values(resources), cursor, limit)
    {
      var all := Dict.Values(resources);
      var items := all;
      if cursor.Some? {
        var found := false;
        var filtered: seq<ResourceItem> := [];
        var i := 0;
        while i < |all|
          invariant 0 <= i <= |all|
          invariant found ==> filtered + all[i..] == After(all, cursor.value)
          invariant !found ==> filtered == [] && After(all[i..], cursor.value) == After(all, cursor.value)
        {
          assert all[i..][1..] == all[i + 1..];
          if found {
            filtered := filtered + [all[i]];
          } else if all[i].uri == cursor.value {
            found := true;
          }
          i := i + 1;
        }
        items := filtered;
      }
      items := Slice(items, limit);
      var nextCursor: Option<string> := None;
      Dict.ValuesLength(resources);
      if |items| == limit && |resources| > limit {
        nextCursor := if items == [] then None else Some(items[|items| - 1].uri);
      }
      return ResourcePage(items, nextCursor);
    }

    /** `listResourceTemplates()`: the templates in the order they were first added. */
    function ListResourceTemplates(): (r: seq<ResourceTemplate>)
      reads this
      ensures |r| == |resourceTemplates|
      ensures forall i :: 0 <= i < |r| ==> r[i] == resourceTemplates[i].1
    {
      Dict.ValuesLength(resourceTemplates);
      Dict.Values(resourceTemplates)
    }

    /** `readResource($uri)`. */
    function ReadResource(uri: string): (r: Outcome<seq<ResourceContent>>)
      reads this
      ensures r.Ok? <==> Dict.HasKey(resourceContents, uri)
    {
      ReadContents(resourceContents, uri)
    }

    /** `resourceExists($uri)`: a resource item is stored under the uri. */
    function ResourceExists(uri: string): (r: bool)
      reads this
      ensures r <==> Dict.Get(resources, uri).Some?
    {
      Dict.HasKey(resources, uri)
    }

    /** The provider's current answers, as the handlers see them; none of them throws. */
    function Source(): (s: ResourceSource)
      reads this
      ensures forall c :: s.listResources(c) == Ok(ListPage(Dict.Values(resources), c, DEFAULT_LIMIT))
      ensures forall u :: s.readResource(u) == ReadResource(u)
      ensures s.listResourceTemplates == Ok(ListResourceTemplates())
      ensures forall u :: s.resourceExists(u) == Ok(ResourceExists(u))
    {
      var rs, ts, cs := resources, resourceTemplates, resourceContents;
      ResourceSource(
        (c: Option<string>) => Ok(ListPage(Dict.Values(rs), c, DEFAULT_LIMIT)),
        (u: string) => ReadContents(cs, u),
        Ok(Dict.Values(ts)),
        (u: string) => Ok(Dict.HasKey(rs, u)))
    }
  }

  /** A page never holds more than the limit, nor more than the provider has. */
  lemma PageBounds(items: seq<ResourceItem>, cursor: Option<string>, limit: int)
    ensures var p := ListPage(items, cursor, limit);
            |p.resources| <= |items| && (limit >= 0 ==> |p.resources| <= limit)
  {
  }

  /** Without a cursor the page is the first `limit` items. */
  lemma FirstPageIsPrefix(items: seq<ResourceItem>, limit: nat)
    ensures ListPage(items, None, limit).resources == items[..if limit < |items| then limit else |items|]
  {
  }

  /** The cursor resumes right after the first item carrying it. */
  lemma {:induction false} AfterFirstMatch(items: seq<ResourceItem>, cursor: string, i: nat)
    requires i < |items| && items[i].uri == cursor
    requires forall j :: 0 <= j < i ==> items[j].uri != cursor
    ensures After(items, cursor) == items[i + 1..]
  {
    if i > 0 {
      assert items[1..][i - 1] == items[i];
      AfterFirstMatch(items[1..], cursor, i - 1);
      assert items[1..][i..] == items[i + 1..];
    }
  }

  /** A cursor no item carries gives an empty page and no next cursor. */
  lemma {:induction false} UnknownCursorGivesEmptyPage(items: seq<ResourceItem>, cursor: string, limit: int)
    requires forall j :: 0 <= j < |items| ==> items[j].uri != cursor
    ensures After(items, cursor) == []
    ensures ListPage(items, Some(cursor), limit) == ResourcePage([], None)
  {
    if items != [] {
      UnknownCursorGivesEmptyPage(items[1..], cursor, limit);
    }
  }

  /**
   * A next cursor is given exactly when the page is full, not empty, and the
   * provider holds more than one page; it is the uri of the page's last item.
   */
  lemma NextCursorCondition(items: seq<ResourceItem>, cursor: Option<string>, limit: int)
    ensures var p := ListPage(items, cursor, limit);
            (p.nextCursor.Some? <==> (limit > 0 && |p.resources| == limit && |items| > limit))
            && (p.nextCursor.Some? ==> p.nextCursor.value == p.resources[limit - 1].uri)
  {
  }

  /**
   * Following the first page's next cursor gives the items after that page,
   * when every item has its own uri.
   */
  lemma SecondPage(items: seq<ResourceItem>, limit: nat)
    requires DistinctUris(items)
    requires ListPage(items, None, limit).nextCursor.Some?
    ensures ListPage(items, ListPage(items, None, limit).nextCursor, limit).resources
            == Slice(items[limit..], limit)
  {
    var c := ListPage(items, None, limit).nextCursor.value;
    assert items[limit - 1].uri == c;
    AfterFirstMatch(items, c, limit - 1);
  }

  /**
   * The next cursor counts every stored item, not those after the cursor:
   * a full last page still reports a next cursor, and following it gives
   * an empty page.
   */
  lemma NextCursorAfterLastPage(a: ResourceItem, b: ResourceItem, c: ResourceItem)
    requires a.uri != b.uri && a.uri != c.uri && b.uri != c.uri
    ensures ListPage([a, b, c], Some(a.uri), 2) == ResourcePage([b, c], Some(c.uri))
    ensures ListPage([a, b, c], Some(c.uri), 2) == ResourcePage([], None)
  {
    AfterFirstMatch([a, b, c], a.uri, 0);
    AfterFirstMatch([a, b, c], c.uri, 2);
  }

  /** In a provider's own store, the listed items carry pairwise different uris. */
  lemma {:induction false} StoredUrisAreDistinct(d: seq<(string, ResourceItem)>)
    requires KeyedByUri(d)
    ensures DistinctUris(Dict.Values(d))
  {
    Dict.ValuesLength(d);
    Dict.KeysLength(d);
    var vs := Dict.Values(d);
    forall i, j | 0 <= i < j < |vs|
      ensures vs[i].uri != vs[j].uri
    {
      Dict.GetAt(d, i);
      Dict.GetAt(d, j);
      assert Dict.Keys(d)[i] != Dict.Keys(d)[j];
    }
  }
}
