/**
 * The initialize handshake's value types and their array forms.
 */
module Types {
  import opened Wrappers
  import opened Values
  import opened Errors
  import Dict

  /** The protocol version every InitializeResult carries unless told otherwise. */
  const DEFAULT_PROTOCOL_VERSION: string := "2024-11-05"

  /**
   * What the client sends with `initialize`. There is no protocol version
   * field: a `protocolVersion` key in the request is dropped.
   */
  datatype InitializeParams = InitializeParams(version: string, capabilities: PhpArray) {

    /** `toArray()`: exactly the keys version and capabilities. */
    function ToArray(): (r: PhpArray)
      ensures Dict.Keys(r) == [StrKey("version"), StrKey("capabilities")]
      ensures Lookup(r, "version") == Str(version)
      ensures Lookup(r, "capabilities") == Arr(capabilities)
    {
      Dict.Literal2((StrKey("version"), Str(version)), (StrKey("capabilities"), Arr(capabilities)));
      [(StrKey("version"), Str(version)), (StrKey("capabilities"), Arr(capabilities))]
    }

    /**
     * `fromArray($data)`: version defaults to "1.0" and capabilities to [];
     * a value of the wrong type is a TypeError.
     */
    static function FromArray(data: PhpArray): (r: Outcome<InitializeParams>)
      ensures !IsSet(data, "version") && !IsSet(data, "capabilities") ==> r == Ok(InitializeParams("1.0", []))
      ensures Lookup(data, "version").Str? && Lookup(data, "capabilities").Arr? ==>
                r == Ok(InitializeParams(Lookup(data, "version").s, Lookup(data, "capabilities").entries))
      ensures r.Fatal? <==> ((IsSet(data, "version") && StringParam(Lookup(data, "version")).None?)
                             || (IsSet(data, "capabilities") && !Lookup(data, "capabilities").Arr?))
      ensures !r.Throw?
    {
      var version := StringParam(Coalesce(Lookup(data, "version"), Str("1.0")));
      var capabilities := ArrayParam(Coalesce(Lookup(data, "capabilities"), Arr([])));
      if version.None? || capabilities.None? then Fatal(ARGUMENT_TYPE_ERROR)
      else Ok(InitializeParams(version.value, capabilities.value))
    }
  }

  /** fromArray inverts toArray. */
  lemma ParamsRoundTrip(p: InitializeParams)
    ensures InitializeParams.FromArray(p.ToArray()) == Ok(p)
  {
  }

  /** A protocolVersion sent by the client does not reach the parsed params. */
  lemma ParamsIgnoreProtocolVersion(data: PhpArray, v: Value)
    ensures InitializeParams.FromArray(With(data, "protocolVersion", v)) == InitializeParams.FromArray(data)
  {
  }

  /** What the server answers to `initialize`. */
  datatype InitializeResult = InitializeResult(protocolVersion: string, serverInfo: PhpArray, capabilities: PhpArray) {

    /** The constructor: serverInfo is {name, version}; the version defaults to 2024-11-05. */
    static function Create(name: string, version: string, capabilities: PhpArray,
                           protocolVersion: string := DEFAULT_PROTOCOL_VERSION): (r: InitializeResult)
      ensures Dict.Keys(r.serverInfo) == [StrKey("name"), StrKey("version")]
      ensures Lookup(r.serverInfo, "name") == Str(name) && Lookup(r.serverInfo, "version") == Str(version)
      ensures r.capabilities == capabilities && r.protocolVersion == protocolVersion
    {
      Dict.Literal2((StrKey("name"), Str(name)), (StrKey("version"), Str(version)));
      InitializeResult(protocolVersion, [(StrKey("name"), Str(name)), (StrKey("version"), Str(version))], capabilities)
    }

    /** `toArray()`: exactly protocolVersion, serverInfo and capabilities. */
    function ToArray(): (r: PhpArray)
      ensures Dict.Keys(r) == [StrKey("protocolVersion"), StrKey("serverInfo"), StrKey("capabilities")]
      ensures Lookup(r, "protocolVersion") == Str(protocolVersion)
      ensures Lookup(r, "serverInfo") == Arr(serverInfo)
      ensures Lookup(r, "capabilities") == Arr(capabilities)
    {
      Dict.Literal3((StrKey("protocolVersion"), Str(protocolVersion)),
                    (StrKey("serverInfo"), Arr(serverInfo)),
                    (StrKey("capabilities"), Arr(capabilities)));
      [(StrKey("protocolVersion"), Str(protocolVersion)),
       (StrKey("serverInfo"), Arr(serverInfo)),
       (StrKey("capabilities"), Arr(capabilities))]
    }

    /**
     * `fromArray($data)` as written: name and version are read from the top
     * level of $data (defaults "unknown" and "1.0"), and the protocol version
     * is never read.
     */
    static function FromArray(data: PhpArray): (r: Outcome<InitializeResult>)
      ensures r.Ok? ==> r.value.protocolVersion == DEFAULT_PROTOCOL_VERSION
      ensures r.Ok? ==> Dict.Keys(r.value.serverInfo) == [StrKey("name"), StrKey("version")]
      ensures r.Ok? && Lookup(data, "name").Str? ==> Lookup(r.value.serverInfo, "name") == Lookup(data, "name")
      ensures r.Ok? && Lookup(data, "version").Str? ==> Lookup(r.value.serverInfo, "version") == Lookup(data, "version")
      ensures r.Ok? && Lookup(data, "capabilities").Arr? ==> r.value.capabilities == Lookup(data, "capabilities").entries
      ensures !IsSet(data, "name") && !IsSet(data, "version") && !IsSet(data, "capabilities") ==>
                r == Ok(Create("unknown", "1.0", []))
      ensures r.Fatal? <==> ((IsSet(data, "name") && StringParam(Lookup(data, "name")).None?)
                             || (IsSet(data, "version") && StringParam(Lookup(data, "version")).None?)
                             || (IsSet(data, "capabilities") && !Lookup(data, "capabilities").Arr?))
      ensures !r.Throw?
    {
      var name := StringParam(Coalesce(Lookup(data, "name"), Str("unknown")));
      var version := StringParam(Coalesce(Lookup(data, "version"), Str("1.0")));
      var capabilities := ArrayParam(Coalesce(Lookup(data, "capabilities"), Arr([])));
      if name.None? || version.None? || capabilities.None? then Fatal(ARGUMENT_TYPE_ERROR)
      else Ok(Create(name.value, version.value, capabilities.value))
    }

    /**
     * fromArray as evidently intended: name and version come from the nested
     * serverInfo array toArray writes, and the protocol version is kept.
     */
    static function FromArrayNested(data: PhpArray): (r: Outcome<InitializeResult>)
      ensures r.Ok? && Lookup(data, "protocolVersion").Str? ==> r.value.protocolVersion == Lookup(data, "protocolVersion").s
      ensures !r.Throw?
    {
      var info := Lookup(data, "serverInfo");
      var name := StringParam(Coalesce(Field(info, "name"), Str("unknown")));
      var version := StringParam(Coalesce(Field(info, "version"), Str("1.0")));
      var capabilities := ArrayParam(Coalesce(Lookup(data, "capabilities"), Arr([])));
      var protocolVersion := StringParam(Coalesce(Lookup(data, "protocolVersion"), Str(DEFAULT_PROTOCOL_VERSION)));
      if name.None? || version.None? || capabilities.None? || protocolVersion.None? then Fatal(ARGUMENT_TYPE_ERROR)
      else Ok(Create(name.value, version.value, capabilities.value, protocolVersion.value))
    }
  }

  /**
   * fromArray as written does not invert toArray: the server's name and
   * version are replaced by the defaults, and a non-default protocol version
   * is lost.
   */
  lemma ResultFromArrayLosesServerInfo(name: string, version: string, capabilities: PhpArray, protocolVersion: string)
    ensures InitializeResult.FromArray(InitializeResult.Create(name, version, capabilities, protocolVersion).ToArray())
            == Ok(InitializeResult.Create("unknown", "1.0", capabilities))
  {
  }

  /** A concrete instance: the server "srv" 2.0 reads back as "unknown" 1.0. */
  lemma ResultFromArrayCounterexample()
    ensures var r := InitializeResult.Create("srv", "2.0", []);
            InitializeResult.FromArray(r.ToArray()) != Ok(r)
  {
    var r := InitializeResult.Create("srv", "2.0", []);
    ResultFromArrayLosesServerInfo("srv", "2.0", [], DEFAULT_PROTOCOL_VERSION);
    assert Lookup(r.serverInfo, "name") == Str("srv");
    assert Lookup(InitializeResult.Create("unknown", "1.0", []).serverInfo, "name") == Str("unknown");
  }

  /** The nested reading inverts toArray for every result the constructor builds. */
  lemma ResultFromArrayNestedRoundTrip(name: string, version: string, capabilities: PhpArray, protocolVersion: string)
    ensures var r := InitializeResult.Create(name, version, capabilities, protocolVersion);
            InitializeResult.FromArrayNested(r.ToArray()) == Ok(r)
  {
  }
}
