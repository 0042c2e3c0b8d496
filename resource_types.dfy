/**
 * The resource feature's value types: resource descriptions, contents,
 * templates, request parameters and results, each with the array form it
 * travels in. Optional fields are omitted from the array when null, and
 * `fromArray` reads an absent key as null.
 */
module ResourceTypes {
  import opened Wrappers
  import opened Values
  import opened Errors
  import Dict

  /** A resource the server offers: a URI, a name and optional metadata. */
  datatype ResourceItem = ResourceItem(
    uri: string,
    name: string,
    description: Option<string> := None,
    mimeType: Option<string> := None,
    size: Option<int> := None)
  {
    /** `toArray()`: uri and name, then each optional field that is not null, in that order. */
    function ToArray(): (r: PhpArray)
      ensures Dict.Keys(r) == [StrKey("uri"), StrKey("name")]
                              + (if description.Some? then [StrKey("description")] else [])
                              + (if mimeType.Some? then [StrKey("mimeType")] else [])
                              + (if size.Some? then [StrKey("size")] else [])
      ensures Lookup(r, "uri") == Str(uri) && Lookup(r, "name") == Str(name)
      ensures Lookup(r, "description") == OptionalString(description)
      ensures Lookup(r, "mimeType") == OptionalString(mimeType)
      ensures Lookup(r, "size") == OptionalInt(size)
    {
      Dict.Literal2((StrKey("uri"), Str(uri)), (StrKey("name"), Str(name)));
      var base := [(StrKey("uri"), Str(uri)), (StrKey("name"), Str(name))];
      var withDescription := WithOptional(base, "description", OptionalString(description));
      var keys1 := [StrKey("uri"), StrKey("name")] + (if description.Some? then [StrKey("description")] else []);
      assert Dict.Keys(withDescription) == keys1;
      assert Lookup(withDescription, "uri") == Str(uri) && Lookup(withDescription, "name") == Str(name);
      var withMime := WithOptional(withDescription, "mimeType", OptionalString(mimeType));
      var keys2 := keys1 + (if mimeType.Some? then [StrKey("mimeType")] else []);
      assert StrKey("mimeType") !in keys1;
      assert Dict.Keys(withMime) == keys2;
      assert Lookup(withMime, "description") == OptionalString(description);
      assert StrKey("size") !in keys2;
      WithOptional(withMime, "size", OptionalInt(size))
    }

    /**
     * `fromArray($data)`: uri and name are required (reading an absent one
     * passes null to a string parameter, a TypeError); the rest default to null.
     */
    static function FromArray(data: PhpArray): (r: Outcome<ResourceItem>)
      ensures Lookup(data, "uri").Str? && Lookup(data, "name").Str? && !IsSet(data, "description")
              && !IsSet(data, "mimeType") && !IsSet(data, "size") ==>
                r == Ok(ResourceItem(Lookup(data, "uri").s, Lookup(data, "name").s))
      ensures !IsSet(data, "uri") || !IsSet(data, "name") ==> r.Fatal?
      ensures r.Ok? && !IsSet(data, "description") ==> r.value.description == None
      ensures r.Ok? && !IsSet(data, "mimeType") ==> r.value.mimeType == None
      ensures r.Ok? && !IsSet(data, "size") ==> r.value.size == None
      ensures !r.Throw?
    {
      var uri := StringParam(Lookup(data, "uri"));
      var name := StringParam(Lookup(data, "name"));
      var description := NullableStringParam(Lookup(data, "description"));
      var mimeType := NullableStringParam(Lookup(data, "mimeType"));
      var size := NullableIntParam(Lookup(data, "size"));
      if uri.None? || name.None? || description.None? || mimeType.None? || size.None? then Fatal(ARGUMENT_TYPE_ERROR)
      else Ok(ResourceItem(uri.value, name.value, description.value, mimeType.value, size.value))
    }
  }

  lemma ItemRoundTrip(i: ResourceItem)
    ensures ResourceItem.FromArray(i.ToArray()) == Ok(i)
  {
  }

  /** The contents of a resource: text or a base64 blob, with a MIME type. */
  datatype ResourceContent = ResourceContent(
    uri: string,
    mimeType: Option<string> := None,
    text: Option<string> := None,
    blob: Option<string> := None)
  {
    /** `ResourceContent::text()`: text content, plain text unless told otherwise. */
    static function Text(uri: string, text: string, mimeType: Option<string> := Some("text/plain")): (r: ResourceContent)
      ensures r.uri == uri && r.text == Some(text) && r.blob.None? && r.mimeType == mimeType
    {
      ResourceContent(uri, mimeType, Some(text), None)
    }

    /** `ResourceContent::binary()`: blob content, an octet stream unless told otherwise. */
    static function Binary(uri: string, blob: string, mimeType: Option<string> := Some("application/octet-stream")): (r: ResourceContent)
      ensures r.uri == uri && r.blob == Some(blob) && r.text.None? && r.mimeType == mimeType
    {
      ResourceContent(uri, mimeType, None, Some(blob))
    }

    /** `toArray()`: uri, then mimeType, text and blob when not null. */
    function ToArray(): (r: PhpArray)
      ensures Dict.Keys(r) == [StrKey("uri")]
                              + (if mimeType.Some? then [StrKey("mimeType")] else [])
                              + (if text.Some? then [StrKey("text")] else [])
                              + (if blob.Some? then [StrKey("blob")] else [])
      ensures Lookup(r, "uri") == Str(uri)
      ensures Lookup(r, "mimeType") == OptionalString(mimeType)
      ensures Lookup(r, "text") == OptionalString(text)
      ensures Lookup(r, "blob") == OptionalString(blob)
    {
      var base := [(StrKey("uri"), Str(uri))];
      var withMime := WithOptional(base, "mimeType", OptionalString(mimeType));
      var keys1 := [StrKey("uri")] + (if mimeType.Some? then [StrKey("mimeType")] else []);
      assert Dict.Keys(withMime) == keys1;
      assert Lookup(withMime, "uri") == Str(uri);
      var withText := WithOptional(withMime, "text", OptionalString(text));
      var keys2 := keys1 + (if text.Some? then [StrKey("text")] else []);
      assert StrKey("text") !in keys1;
      assert Dict.Keys(withText) == keys2;
      assert Lookup(withText, "mimeType") == OptionalString(mimeType);
      assert StrKey("blob") !in keys2;
      WithOptional(withText, "blob", OptionalString(blob))
    }

    /** `fromArray($data)`: uri is required; the rest default to null. */
    static function FromArray(data: PhpArray): (r: Outcome<ResourceContent>)
      ensures !IsSet(data, "uri") ==> r.Fatal?
      ensures r.Ok? && !IsSet(data, "mimeType") ==> r.value.mimeType == None
      ensures r.Ok? && !IsSet(data, "text") ==> r.value.text == None
      ensures r.Ok? && !IsSet(data, "blob") ==> r.value.blob == None
      ensures !r.Throw?
    {
      var uri := StringParam(Lookup(data, "uri"));
      var mimeType := NullableStringParam(Lookup(data, "mimeType"));
      var text := NullableStringParam(Lookup(data, "text"));
      var blob := NullableStringParam(Lookup(data, "blob"));
      if uri.None? || mimeType.None? || text.None? || blob.None? then Fatal(ARGUMENT_TYPE_ERROR)
      else Ok(ResourceContent(uri.value, mimeType.value, text.value, blob.value))
    }
  }

  lemma ContentRoundTrip(c: ResourceContent)
    ensures ResourceContent.FromArray(c.ToArray()) == Ok(c)
  {
  }

  /** Text-built content never serialises a blob, and binary-built content never a text. */
  lemma ContentKindsAreExclusive(uri: string, body: string, mimeType: Option<string>)
    ensures !Dict.HasKey(ResourceContent.Text(uri, body, mimeType).ToArray(), StrKey("blob"))
    ensures !Dict.HasKey(ResourceContent.Binary(uri, body, mimeType).ToArray(), StrKey("text"))
    ensures Lookup(ResourceContent.Text(uri, body).ToArray(), "mimeType") == Str("text/plain")
    ensures Lookup(ResourceContent.Binary(uri, body).ToArray(), "mimeType") == Str("application/octet-stream")
  {
  }

  /** A parameterised family of resources. */
  datatype ResourceTemplate = ResourceTemplate(
    uriTemplate: string,
    name: string,
    description: Option<string> := None,
    mimeType: Option<string> := None)
  {
    /** `toArray()`: uriTemplate and name, then description and mimeType when not null. */
    function ToArray(): (r: PhpArray)
      ensures Dict.Keys(r) == [StrKey("uriTemplate"), StrKey("name")]
                              + (if description.Some? then [StrKey("description")] else [])
                              + (if mimeType.Some? then [StrKey("mimeType")] else [])
      ensures Lookup(r, "uriTemplate") == Str(uriTemplate) && Lookup(r, "name") == Str(name)
      ensures Lookup(r, "description") == OptionalString(description)
      ensures Lookup(r, "mimeType") == OptionalString(mimeType)
    {
      Dict.Literal2((StrKey("uriTemplate"), Str(uriTemplate)), (StrKey("name"), Str(name)));
      var base := [(StrKey("uriTemplate"), Str(uriTemplate)), (StrKey("name"), Str(name))];
      var withDescription := WithOptional(base, "description", OptionalString(description));
      WithOptional(withDescription, "mimeType", OptionalString(mimeType))
    }

    /** `fromArray($data)`: uriTemplate and name are required; the rest default to null. */
    static function FromArray(data: PhpArray): (r: Outcome<ResourceTemplate>)
      ensures !IsSet(data, "uriTemplate") || !IsSet(data, "name") ==> r.Fatal?
      ensures r.Ok? && !IsSet(data, "description") ==> r.value.description == None
      ensures r.Ok? && !IsSet(data, "mimeType") ==> r.value.mimeType == None
      ensures !r.Throw?
    {
      var uriTemplate := StringParam(Lookup(data, "uriTemplate"));
      var name := StringParam(Lookup(data, "name"));
      var description := NullableStringParam(Lookup(data, "description"));
      var mimeType := NullableStringParam(Lookup(data, "mimeType"));
      if uriTemplate.None? || name.None? || description.None? || mimeType.None? then Fatal(ARGUMENT_TYPE_ERROR)
      else Ok(ResourceTemplate(uriTemplate.value, name.value, description.value, mimeType.value))
    }
  }

  lemma TemplateRoundTrip(t: ResourceTemplate)
    ensures ResourceTemplate.FromArray(t.ToArray()) == Ok(t)
  {
  }

  /** Parameters of `resources/list`: an optional cursor. */
  datatype ResourceListParams = ResourceListParams(cursor: Option<string> := None) {

    /** `toArray()`: {} for a null cursor, {cursor} otherwise. */
    function ToArray(): (r: PhpArray)
      ensures cursor.None? ==> r == []
      ensures cursor.Some? ==> Dict.Keys(r) == [StrKey("cursor")] && Lookup(r, "cursor") == Str(cursor.value)
    {
      WithOptional([], "cursor", OptionalString(cursor))
    }

    /** `fromArray($data)`: no cursor key means a null cursor. */
    static function FromArray(data: PhpArray): (r: Outcome<ResourceListParams>)
      ensures !IsSet(data, "cursor") ==> r == Ok(ResourceListParams(None))
      ensures Lookup(data, "cursor").Str? ==> r == Ok(ResourceListParams(Some(Lookup(data, "cursor").s)))
      ensures !r.Throw?
    {
      match NullableStringParam(Lookup(data, "cursor"))
      case None => Fatal(ARGUMENT_TYPE_ERROR)
      case Some(cursor) => Ok(ResourceListParams(cursor))
    }
  }

  lemma ListParamsRoundTrip(p: ResourceListParams)
    ensures ResourceListParams.FromArray(p.ToArray()) == Ok(p)
  {
  }

  /**
   * The guard shared by the three single-URI parameter types: a URI that is
   * absent or null throws InvalidArgumentException "URI is required for
   * resource <purpose> params"; one of the wrong type is a TypeError.
   */
  function UriFromArray(data: PhpArray, purpose: string): (r: Outcome<string>)
    ensures !IsSet(data, "uri") ==>
              r == Throw(Exception(InvalidArgumentException, "URI is required for resource " + purpose + " params"))
    ensures Lookup(data, "uri").Str? ==> r == Ok(Lookup(data, "uri").s)
    ensures r.Fatal? <==> IsSet(data, "uri") && StringParam(Lookup(data, "uri")).None?
    ensures IsSet(data, "uri") && StringParam(Lookup(data, "uri")).Some? ==> r == Ok(StringParam(Lookup(data, "uri")).value)
  {
    if !IsSet(data, "uri") then Throw(Exception(InvalidArgumentException, "URI is required for resource " + purpose + " params"))
    else match StringParam(Lookup(data, "uri"))
      case None => Fatal(ARGUMENT_TYPE_ERROR)
      case Some(uri) => Ok(uri)
  }

  /** `{uri}`, the array form of the three single-URI parameter types. */
  function UriArray(uri: string): (r: PhpArray)
    ensures Dict.Keys(r) == [StrKey("uri")] && Lookup(r, "uri") == Str(uri)
  {
    [(StrKey("uri"), Str(uri))]
  }

  datatype ResourceReadParams = ResourceReadParams(uri: string) {
    function ToArray(): (r: PhpArray)
      ensures Dict.Keys(r) == [StrKey("uri")] && Lookup(r, "uri") == Str(uri)
    {
      UriArray(uri)
    }

    static function FromArray(data: PhpArray): (r: Outcome<ResourceReadParams>)
      ensures !IsSet(data, "uri") ==> r == Throw(Exception(InvalidArgumentException, "URI is required for resource read params"))
      ensures Lookup(data, "uri").Str? ==> r == Ok(ResourceReadParams(Lookup(data, "uri").s))
      ensures IsSet(data, "uri") ==> (r.Fatal? <==> StringParam(Lookup(data, "uri")).None?)
      ensures IsSet(data, "uri") && StringParam(Lookup(data, "uri")).Some? ==>
                r == Ok(ResourceReadParams(StringParam(Lookup(data, "uri")).value))
    {
      var uri :- UriFromArray(data, "read");
      Ok(ResourceReadParams(uri))
    }
  }

  datatype ResourceSubscribeParams = ResourceSubscribeParams(uri: string) {
    function ToArray(): (r: PhpArray)
      ensures Dict.Keys(r) == [StrKey("uri")] && Lookup(r, "uri") == Str(uri)
    {
      UriArray(uri)
    }

    static function FromArray(data: PhpArray): (r: Outcome<ResourceSubscribeParams>)
      ensures !IsSet(data, "uri") ==> r == Throw(Exception(InvalidArgumentException, "URI is required for resource subscribe params"))
      ensures Lookup(data, "uri").Str? ==> r == Ok(ResourceSubscribeParams(Lookup(data, "uri").s))
      ensures IsSet(data, "uri") ==> (r.Fatal? <==> StringParam(Lookup(data, "uri")).None?)
      ensures IsSet(data, "uri") && StringParam(Lookup(data, "uri")).Some? ==>
                r == Ok(ResourceSubscribeParams(StringParam(Lookup(data, "uri")).value))
    {
      var uri :- UriFromArray(data, "subscribe");
      Ok(ResourceSubscribeParams(uri))
    }
  }

  datatype ResourceUnsubscribeParams = ResourceUnsubscribeParams(uri: string) {
    function ToArray(): (r: PhpArray)
      ensures Dict.Keys(r) == [StrKey("uri")] && Lookup(r, "uri") == Str(uri)
    {
      UriArray(uri)
    }

    static function FromArray(data: PhpArray): (r: Outcome<ResourceUnsubscribeParams>)
      ensures !IsSet(data, "uri") ==> r == Throw(Exception(InvalidArgumentException, "URI is required for resource unsubscribe params"))
      ensures Lookup(data, "uri").Str? ==> r == Ok(ResourceUnsubscribeParams(Lookup(data, "uri").s))
      ensures IsSet(data, "uri") ==> (r.Fatal? <==> StringParam(Lookup(data, "uri")).None?)
      ensures IsSet(data, "uri") && StringParam(Lookup(data, "uri")).Some? ==>
                r == Ok(ResourceUnsubscribeParams(StringParam(Lookup(data, "uri")).value))
    {
      var uri :- UriFromArray(data, "unsubscribe");
      Ok(ResourceUnsubscribeParams(uri))
    }
  }

  lemma UriParamsRoundTrip(uri: string)
    ensures ResourceReadParams.FromArray(ResourceReadParams(uri).ToArray()) == Ok(ResourceReadParams(uri))
    ensures ResourceSubscribeParams.FromArray(ResourceSubscribeParams(uri).ToArray()) == Ok(ResourceSubscribeParams(uri))
    ensures ResourceUnsubscribeParams.FromArray(ResourceUnsubscribeParams(uri).ToArray()) == Ok(ResourceUnsubscribeParams(uri))
  {
  }

  /** `array_map(fn ($x) => $x->toArray(), $xs)` over a list. */
  function ItemArrays(items: seq<ResourceItem>): (r: seq<Value>)
    ensures |r| == |items|
    ensures forall k :: 0 <= k < |items| ==> r[k] == Arr(items[k].ToArray())
  {
    seq(|items|, k requires 0 <= k < |items| => Arr(items[k].ToArray()))
  }

  function ContentArrays(contents: seq<ResourceContent>): (r: seq<Value>)
    ensures |r| == |contents|
    ensures forall k :: 0 <= k < |contents| ==> r[k] == Arr(contents[k].ToArray())
  {
    seq(|contents|, k requires 0 <= k < |contents| => Arr(contents[k].ToArray()))
  }

  function TemplateArrays(templates: seq<ResourceTemplate>): (r: seq<Value>)
    ensures |r| == |templates|
    ensures forall k :: 0 <= k < |templates| ==> r[k] == Arr(templates[k].ToArray())
  {
    seq(|templates|, k requires 0 <= k < |templates| => Arr(templates[k].ToArray()))
  }

  /** The answer to `resources/list`: one page of items and the cursor for the next. */
  datatype ResourceListResult = ResourceListResult(resources: seq<ResourceItem>, nextCursor: Option<string> := None) {

    /** `toArray()`: the items' arrays in order, and nextCursor only when it is not null. */
    function ToArray(): (r: PhpArray)
      ensures Dict.Keys(r) == [StrKey("resources")] + (if nextCursor.Some? then [StrKey("nextCursor")] else [])
      ensures Lookup(r, "resources") == Arr(ListOf(ItemArrays(resources)))
      ensures Lookup(r, "nextCursor") == OptionalString(nextCursor)
    {
      WithOptional([(StrKey("resources"), Arr(ListOf(ItemArrays(resources))))], "nextCursor", OptionalString(nextCursor))
    }
  }

  /** The answer to `resources/read`. */
  datatype ResourceReadResult = ResourceReadResult(contents: seq<ResourceContent>) {

    /** `toArray()`: only the key contents, holding each content's array in order. */
    function ToArray(): (r: PhpArray)
      ensures Dict.Keys(r) == [StrKey("contents")]
      ensures Lookup(r, "contents") == Arr(ListOf(ContentArrays(contents)))
      ensures contents == [] ==> Lookup(r, "contents") == Arr([])
    {
      [(StrKey("contents"), Arr(ListOf(ContentArrays(contents))))]
    }
  }

  /** The answer to `resources/templates/list`. */
  datatype ResourceTemplatesListResult = ResourceTemplatesListResult(resourceTemplates: seq<ResourceTemplate>) {

    /** `toArray()`: only the key resourceTemplates, holding each template's array in order. */
    function ToArray(): (r: PhpArray)
      ensures Dict.Keys(r) == [StrKey("resourceTemplates")]
      ensures Lookup(r, "resourceTemplates") == Arr(ListOf(TemplateArrays(resourceTemplates)))
      ensures resourceTemplates == [] ==> Lookup(r, "resourceTemplates") == Arr([])
    {
      [(StrKey("resourceTemplates"), Arr(ListOf(TemplateArrays(resourceTemplates))))]
    }
  }
}
