/**
 * `NpgsqlSlimDataSourceBuilder`: the chain of type-info resolvers a data source consults
 * (at most one per resolver type, the most recently added first), the guards on its
 * settings, and the choice of data source kind that `Build` makes.
 */
module SlimDataSourceBuilders {
  import opened Wrappers

  /** The runtime type of a resolver; `AddTypeInfoResolver` keeps at most one resolver of each. */
  datatype ResolverType =
    | AdoResolver
    | UnsupportedResolver
    | RangeResolver
    | SystemTextJsonResolver
    | RecordResolver
    | FullTextSearchResolver
    | LTreeResolver
    | ExtraConversionsResolver
    | UserMapperResolver
    | OtherResolver(name: string)

  /** An `IPgTypeInfoResolver` instance; only its runtime type matters to the chain. */
  class TypeInfoResolver {
    const runtimeType: ResolverType

    constructor (runtimeType: ResolverType)
      ensures this.runtimeType == runtimeType
    {
      this.runtimeType := runtimeType;
    }
  }

  /** One item of the user type mapper, keyed by the PostgreSQL type name it maps to. */
  datatype UserMapping = EnumMapping(pgName: string) | CompositeMapping(pgName: string)

  datatype ReplicationMode = Off | Logical | Physical

  /** The connection-string settings `Build` and `PrepareConfiguration` look at. */
  datatype ConnectionSettings = ConnectionSettings(
    host: string,
    multiplexing: bool,
    pooling: bool,
    replicationMode: ReplicationMode,
    targetSessionAttributes: Option<string>,
    password: Option<string>,
    passfile: Option<string>)

  /** The data source classes `Build` can construct. */
  datatype DataSourceKind = MultiHost | Multiplexing | Pooling | Unpooled

  datatype LoggingConfiguration = NullConfiguration | Logging(sensitiveDataLogging: bool)

  /** What `PrepareConfiguration` hands to the data source, as far as the model follows it. */
  datatype Configuration = Configuration(
    logging: LoggingConfiguration,
    encryption: bool,
    resolvers: seq<TypeInfoResolver>,
    passwordProvider: bool,
    successRefreshInterval: int,
    failureRefreshInterval: int,
    connectionInitializers: bool)

  datatype DataSource = DataSource(kind: DataSourceKind, configuration: Configuration)

  // ---- The resolver chain ----

  /** The chain without its first resolver of type `t`, if it has one. */
  function RemoveFirst(chain: seq<TypeInfoResolver>, t: ResolverType): (r: seq<TypeInfoResolver>)
    ensures |r| <= |chain| && |chain| - 1 <= |r|
    ensures forall x | x in r :: x in chain
  {
    if chain == [] then []
    else if chain[0].runtimeType == t then chain[1..]
    else [chain[0]] + RemoveFirst(chain[1..], t)
  }

  /** `AddTypeInfoResolver` on a chain: the new resolver first, replacing the first one of its type. */
  function Added(chain: seq<TypeInfoResolver>, resolver: TypeInfoResolver): seq<TypeInfoResolver>
  {
    [resolver] + RemoveFirst(chain, resolver.runtimeType)
  }

  predicate NoneOfType(chain: seq<TypeInfoResolver>, t: ResolverType)
  {
    forall i | 0 <= i < |chain| :: chain[i].runtimeType != t
  }

  predicate AtMostOnePerType(chain: seq<TypeInfoResolver>)
  {
    forall i, j | 0 <= i < j < |chain| :: chain[i].runtimeType != chain[j].runtimeType
  }

  /** A chain without a resolver of type `t` is left as it is. */
  lemma {:induction false} RemoveFirstNone(chain: seq<TypeInfoResolver>, t: ResolverType)
    requires NoneOfType(chain, t)
    ensures RemoveFirst(chain, t) == chain
  {
    if chain != [] {
      RemoveFirstNone(chain[1..], t);
    }
  }

  /** The first resolver of type `t`, at `i`, is the one removed. */
  lemma {:induction false} RemoveFirstAt(chain: seq<TypeInfoResolver>, t: ResolverType, i: nat)
    requires i < |chain| && chain[i].runtimeType == t && NoneOfType(chain[..i], t)
    ensures RemoveFirst(chain, t) == chain[..i] + chain[i + 1..]
  {
    if i > 0 {
      assert chain[0] == chain[..i][0];
      assert chain[1..][..i - 1] == chain[1..i];
      RemoveFirstAt(chain[1..], t, i - 1);
      assert chain[..i] == [chain[0]] + chain[1..][..i - 1];
      assert chain[i + 1..] == chain[1..][i..];
    }
  }

  /** The index of the first resolver of type `t`. */
  function FirstOfType(chain: seq<TypeInfoResolver>, t: ResolverType): (i: nat)
    requires !NoneOfType(chain, t)
    ensures i < |chain| && chain[i].runtimeType == t && NoneOfType(chain[..i], t)
  {
    if chain[0].runtimeType == t then 0
    else
      var i := 1 + FirstOfType(chain[1..], t);
      assert chain[..i] == [chain[0]] + chain[1..][..i - 1];
      i
  }

  /** Removing from a chain with at most one resolver per type keeps it so and leaves none of the removed type. */
  lemma {:induction false} RemovedKeepsOnePerType(chain: seq<TypeInfoResolver>, t: ResolverType)
    requires AtMostOnePerType(chain)
    ensures AtMostOnePerType(RemoveFirst(chain, t)) && NoneOfType(RemoveFirst(chain, t), t)
  {
    if chain != [] {
      var tail := chain[1..];
      assert AtMostOnePerType(tail) by {
        forall i, j | 0 <= i < j < |tail|
          ensures tail[i].runtimeType != tail[j].runtimeType
        {
          assert tail[i] == chain[i + 1] && tail[j] == chain[j + 1];
        }
      }
      assert NoneOfType(tail, chain[0].runtimeType) by {
        forall i | 0 <= i < |tail|
          ensures tail[i].runtimeType != chain[0].runtimeType
        {
          assert tail[i] == chain[i + 1];
        }
      }
      if chain[0].runtimeType != t {
        RemovedKeepsOnePerType(tail, t);
        var rest := RemoveFirst(tail, t);
        forall k | 0 <= k < |rest|
          ensures rest[k].runtimeType != chain[0].runtimeType
        {
          assert rest[k] in tail;
        }
        assert RemoveFirst(chain, t) == [chain[0]] + rest;
      }
    }
  }

  /**
   * Adding a resolver to a chain with at most one resolver per type keeps it so, and the
   * new resolver is then the only one of its type.
   */
  lemma AddedKeepsOnePerType(chain: seq<TypeInfoResolver>, resolver: TypeInfoResolver)
    requires AtMostOnePerType(chain)
    ensures AtMostOnePerType(Added(chain, resolver))
    ensures NoneOfType(Added(chain, resolver)[1..], resolver.runtimeType)
  {
    var rest := RemoveFirst(chain, resolver.runtimeType);
    RemovedKeepsOnePerType(chain, resolver.runtimeType);
    assert Added(chain, resolver)[1..] == rest;
  }

  /** Every plugin in turn through `AddTypeInfoResolver`, as the public constructor does. */
  function PluginChain(plugins: seq<TypeInfoResolver>): seq<TypeInfoResolver>
  {
    if plugins == [] then [] else Added(PluginChain(plugins[..|plugins| - 1]), plugins[|plugins| - 1])
  }

  function Reversed<X>(s: seq<X>): (r: seq<X>)
    ensures |r| == |s|
  {
    if s == [] then [] else [s[|s| - 1]] + Reversed(s[..|s| - 1])
  }

  /** Plugins of distinct types end up in the chain in the reverse of their order. */
  lemma {:induction false} PluginChainReversed(plugins: seq<TypeInfoResolver>)
    requires AtMostOnePerType(plugins)
    ensures PluginChain(plugins) == Reversed(plugins)
  {
    if plugins != [] {
      var front, last := plugins[..|plugins| - 1], plugins[|plugins| - 1];
      assert AtMostOnePerType(front) by {
        forall i, j | 0 <= i < j < |front|
          ensures front[i].runtimeType != front[j].runtimeType
        {
          assert front[i] == plugins[i] && front[j] == plugins[j];
        }
      }
      PluginChainReversed(front);
      assert NoneOfType(Reversed(front), last.runtimeType) by {
        ReversedElements(front);
        forall k | 0 <= k < |front|
          ensures Reversed(front)[k].runtimeType != last.runtimeType
        {
          assert front[|front| - 1 - k] == plugins[|front| - 1 - k];
        }
      }
      RemoveFirstNone(Reversed(front), last.runtimeType);
    }
  }

  lemma {:induction false} ReversedElements<X>(s: seq<X>)
    ensures forall k | 0 <= k < |s| :: Reversed(s)[k] == s[|s| - 1 - k]
  {
    if s != [] {
      ReversedElements(s[..|s| - 1]);
    }
  }

  // ---- Guards and the data source choice ----

  /** `ValidateMultiHost`: target session attributes, multiplexing and replication are refused with several hosts. */
  function ValidateMultiHost(settings: ConnectionSettings): (r: Result<Unit>)
    ensures r.Ok? <==> settings.targetSessionAttributes.None? && !settings.multiplexing && settings.replicationMode == Off
    ensures r.Err? ==> r.error == (if settings.targetSessionAttributes.Some? then InvalidOperation else NotSupported)
  {
    if settings.targetSessionAttributes.Some? then Err(InvalidOperation)
    else if settings.multiplexing then Err(NotSupported)
    else if settings.replicationMode != Off then Err(NotSupported)
    else Ok(Unit)
  }

  /** The choice `Build` makes once the configuration is prepared. */
  function SelectDataSource(settings: ConnectionSettings): (r: Result<DataSourceKind>)
    ensures r == Ok(MultiHost) <==> ',' in settings.host && ValidateMultiHost(settings).Ok?
    ensures r == Ok(Multiplexing) <==> ',' !in settings.host && settings.multiplexing
    ensures r == Ok(Pooling) <==> ',' !in settings.host && !settings.multiplexing && settings.pooling
    ensures r == Ok(Unpooled) <==> ',' !in settings.host && !settings.multiplexing && !settings.pooling
    ensures r.Err? <==> ',' in settings.host && ValidateMultiHost(settings).Err?
    ensures r.Err? ==> r.error == ValidateMultiHost(settings).error
  {
    if ',' in settings.host then
      var _ :- ValidateMultiHost(settings);
      Ok(MultiHost)
    else if settings.multiplexing then Ok(Multiplexing)
    else if settings.pooling then Ok(Pooling)
    else Ok(Unpooled)
  }

  class SlimDataSourceBuilder {
    var settings: ConnectionSettings
    var loggerFactory: bool
    var sensitiveDataLogging: bool
    /** `_encryptionHandler` is a `RealEncryptionHandler`. */
    var encryption: bool
    var userCertificateValidationCallback: bool
    var clientCertificatesCallback: bool
    var passwordProvider: bool
    var successRefreshInterval: int
    var failureRefreshInterval: int
    var resolverChain: seq<TypeInfoResolver>
    /** The items of `_userTypeMapper`, one per mapped PostgreSQL enum or composite name. */
    var userMappings: set<UserMapping>
    var syncConnectionInitializer: bool
    var asyncConnectionInitializer: bool

    /**
     * The public constructor: the plugins, then the shared unsupported-type resolver, then a
     * new ADO resolver, each through `AddTypeInfoResolver`.
     */
    constructor (settings: ConnectionSettings, plugins: seq<TypeInfoResolver>, unsupported: TypeInfoResolver)
      requires unsupported.runtimeType == UnsupportedResolver
      ensures this.settings == settings && !loggerFactory && !encryption && userMappings == {}
      ensures !sensitiveDataLogging && !userCertificateValidationCallback && !clientCertificatesCallback
      ensures !passwordProvider && successRefreshInterval == 0 && failureRefreshInterval == 0
      ensures !syncConnectionInitializer && !asyncConnectionInitializer
      ensures |resolverChain| >= 2 && fresh(resolverChain[0]) && resolverChain[1] == unsupported
      ensures resolverChain[0].runtimeType == AdoResolver
      ensures resolverChain == Added(Added(PluginChain(plugins), unsupported), resolverChain[0])
      ensures AtMostOnePerType(resolverChain)
    {
      this.settings := settings;
      loggerFactory, sensitiveDataLogging, encryption := false, false, false;
      userCertificateValidationCallback, clientCertificatesCallback, passwordProvider := false, false, false;
      successRefreshInterval, failureRefreshInterval := 0, 0;
      resolverChain := [];
      userMappings := {};
      syncConnectionInitializer, asyncConnectionInitializer := false, false;
      new;
      var i := 0;
      while i < |plugins|
        invariant 0 <= i <= |plugins|
        invariant resolverChain == PluginChain(plugins[..i]) && AtMostOnePerType(resolverChain)
        modifies this`resolverChain
      {
        assert plugins[..i + 1][..i] == plugins[..i];
        AddedKeepsOnePerType(resolverChain, plugins[i]);
        AddTypeInfoResolver(plugins[i]);
        i := i + 1;
      }
      assert plugins[..i] == plugins;
      AddedKeepsOnePerType(resolverChain, unsupported);
      AddTypeInfoResolver(unsupported);
      var ado := new TypeInfoResolver(AdoResolver);
      AddedKeepsOnePerType(resolverChain, ado);
      AddTypeInfoResolver(ado);
    }

    /** The internal constructor: given settings, an empty chain and nothing configured. */
    constructor FromSettings(settings: ConnectionSettings)
      ensures this.settings == settings && resolverChain == [] && userMappings == {}
      ensures !loggerFactory && !sensitiveDataLogging && !encryption && !passwordProvider
      ensures successRefreshInterval == 0 && failureRefreshInterval == 0
      ensures !userCertificateValidationCallback && !clientCertificatesCallback
      ensures !syncConnectionInitializer && !asyncConnectionInitializer
    {
      this.settings := settings;
      loggerFactory, sensitiveDataLogging, encryption := false, false, false;
      userCertificateValidationCallback, clientCertificatesCallback, passwordProvider := false, false, false;
      successRefreshInterval, failureRefreshInterval := 0, 0;
      resolverChain := [];
      userMappings := {};
      syncConnectionInitializer, asyncConnectionInitializer := false, false;
    }

    method UseLoggerFactory(present: bool) returns (b: SlimDataSourceBuilder)
      modifies this`loggerFactory
      ensures b == this && loggerFactory == present
    {
      loggerFactory := present;
      return this;
    }

    method EnableParameterLogging(enabled: bool) returns (b: SlimDataSourceBuilder)
      modifies this`sensitiveDataLogging
      ensures b == this && sensitiveDataLogging == enabled
    {
      sensitiveDataLogging := enabled;
      return this;
    }

    /** `AddTypeInfoResolver`: drop the first resolver of the same runtime type, then insert at the front. */
    method AddTypeInfoResolver(resolver: TypeInfoResolver)
      modifies this`resolverChain
      ensures resolverChain == Added(old(resolverChain), resolver)
    {
      var i := 0;
      while i < |resolverChain|
        invariant 0 <= i <= |resolverChain| && resolverChain == old(resolverChain)
        invariant NoneOfType(resolverChain[..i], resolver.runtimeType)
      {
        if resolverChain[i].runtimeType == resolver.runtimeType {
          RemoveFirstAt(resolverChain, resolver.runtimeType, i);
          resolverChain := resolverChain[..i] + resolverChain[i + 1..];
          break;
        }
        assert resolverChain[..i + 1] == resolverChain[..i] + [resolverChain[i]];
        i := i + 1;
      }
      if i == |old(resolverChain)| {
        assert resolverChain[..i] == resolverChain;
        RemoveFirstNone(resolverChain, resolver.runtimeType);
      }
      resolverChain := [resolver] + resolverChain;
    }

    /** `ResetTypeMappings`: the chain becomes exactly the plugin resolvers, in their order. */
    method ResetTypeMappings(plugins: seq<TypeInfoResolver>)
      modifies this`resolverChain
      ensures resolverChain == plugins
    {
      resolverChain := [];
      resolverChain := resolverChain + plugins;
    }

    /** Maps a CLR enum to the PostgreSQL enum `pgName` (already translated when the caller gave none); returns the builder. */
    method MapEnum(pgName: string) returns (b: SlimDataSourceBuilder)
      modifies this`userMappings
      ensures b == this && userMappings == old(userMappings) + {EnumMapping(pgName)}
    {
      userMappings := userMappings + {EnumMapping(pgName)};
      b := this;
    }

    /** Removes the enum mapping for `pgName`; true exactly when there was one. */
    method UnmapEnum(pgName: string) returns (removed: bool)
      modifies this`userMappings
      ensures removed <==> EnumMapping(pgName) in old(userMappings)
      ensures userMappings == old(userMappings) - {EnumMapping(pgName)}
    {
      removed := EnumMapping(pgName) in userMappings;
      userMappings := userMappings - {EnumMapping(pgName)};
    }

    /** Maps a CLR type to the PostgreSQL composite `pgName`; returns the builder. */
    method MapComposite(pgName: string) returns (b: SlimDataSourceBuilder)
      modifies this`userMappings
      ensures b == this && userMappings == old(userMappings) + {CompositeMapping(pgName)}
    {
      userMappings := userMappings + {CompositeMapping(pgName)};
      b := this;
    }

    /** Removes the composite mapping for `pgName`; true exactly when there was one. */
    method UnmapComposite(pgName: string) returns (removed: bool)
      modifies this`userMappings
      ensures removed <==> CompositeMapping(pgName) in old(userMappings)
      ensures userMappings == old(userMappings) - {CompositeMapping(pgName)}
    {
      removed := CompositeMapping(pgName) in userMappings;
      userMappings := userMappings - {CompositeMapping(pgName)};
    }

    /** A new resolver of type `t` added to the chain, as every `Enable…` opt-in does. */
    method AddNew(t: ResolverType)
      modifies this`resolverChain
      ensures |resolverChain| >= 1 && fresh(resolverChain[0]) && resolverChain[0].runtimeType == t
      ensures resolverChain == Added(old(resolverChain), resolverChain[0])
    {
      var resolver := new TypeInfoResolver(t);
      AddTypeInfoResolver(resolver);
    }

    /** `EnableArrays`: adds a `RangeTypeInfoResolver`. */
    method EnableArrays() returns (b: SlimDataSourceBuilder)
      modifies this`resolverChain
      ensures b == this
      ensures |resolverChain| >= 1 && fresh(resolverChain[0]) && resolverChain[0].runtimeType == RangeResolver
      ensures resolverChain == Added(old(resolverChain), resolverChain[0])
    {
      AddNew(RangeResolver);
      return this;
    }

    /** `EnableRanges`: adds a `RangeTypeInfoResolver` too. */
    method EnableRanges() returns (b: SlimDataSourceBuilder)
      modifies this`resolverChain
      ensures b == this
      ensures |resolverChain| >= 1 && fresh(resolverChain[0]) && resolverChain[0].runtimeType == RangeResolver
      ensures resolverChain == Added(old(resolverChain), resolverChain[0])
    {
      AddNew(RangeResolver);
      return this;
    }

    /** `EnableMultiranges`: adds a `RangeTypeInfoResolver` as well. */
    method EnableMultiranges() returns (b: SlimDataSourceBuilder)
      modifies this`resolverChain
      ensures b == this
      ensures |resolverChain| >= 1 && fresh(resolverChain[0]) && resolverChain[0].runtimeType == RangeResolver
      ensures resolverChain == Added(old(resolverChain), resolverChain[0])
    {
      AddNew(RangeResolver);
      return this;
    }

    /** `UseSystemTextJson`, `EnableRecords`, `EnableFullTextSearch`, `EnableLTree`, `EnableExtraConversions`. */
    method EnableFeature(t: ResolverType) returns (b: SlimDataSourceBuilder)
      requires t in {SystemTextJsonResolver, RecordResolver, FullTextSearchResolver, LTreeResolver, ExtraConversionsResolver}
      modifies this`resolverChain
      ensures b == this
      ensures |resolverChain| >= 1 && fresh(resolverChain[0]) && resolverChain[0].runtimeType == t
      ensures resolverChain == Added(old(resolverChain), resolverChain[0])
    {
      AddNew(t);
      return this;
    }

    /** `EnableEncryption`: installs the real encryption handler. */
    method EnableEncryption() returns (b: SlimDataSourceBuilder)
      modifies this`encryption
      ensures b == this && encryption
    {
      encryption := true;
      return this;
    }

    method UseUserCertificateValidationCallback(present: bool) returns (b: SlimDataSourceBuilder)
      modifies this`userCertificateValidationCallback
      ensures b == this && userCertificateValidationCallback == present
    {
      userCertificateValidationCallback := present;
      return this;
    }

    method UseClientCertificatesCallback(present: bool) returns (b: SlimDataSourceBuilder)
      modifies this`clientCertificatesCallback
      ensures b == this && clientCertificatesCallback == present
    {
      clientCertificatesCallback := present;
      return this;
    }

    /** `UsePeriodicPasswordProvider`: a negative interval is an `ArgumentException` and changes nothing. */
    method UsePeriodicPasswordProvider(provider: bool, successRefresh: int, failureRefresh: int)
      returns (r: Result<SlimDataSourceBuilder>)
      modifies this`passwordProvider, this`successRefreshInterval, this`failureRefreshInterval
      ensures r.Err? <==> successRefresh < 0 || failureRefresh < 0
      ensures r.Err? ==> r.error == Argument && unchanged(this)
      ensures r.Ok? ==> r.value == this && passwordProvider == provider
                        && successRefreshInterval == successRefresh && failureRefreshInterval == failureRefresh
    {
      if successRefresh < 0 {
        return Err(Argument);
      }
      if failureRefresh < 0 {
        return Err(Argument);
      }
      passwordProvider, successRefreshInterval, failureRefreshInterval := provider, successRefresh, failureRefresh;
      return Ok(this);
    }

    /** `UsePhysicalConnectionInitializer`: both initializers or neither. */
    method UsePhysicalConnectionInitializer(sync: bool, async: bool) returns (r: Result<SlimDataSourceBuilder>)
      modifies this`syncConnectionInitializer, this`asyncConnectionInitializer
      ensures r.Err? <==> sync != async
      ensures r.Err? ==> r.error == Argument && unchanged(this)
      ensures r.Ok? ==> r.value == this && syncConnectionInitializer == sync && asyncConnectionInitializer == async
    {
      if sync != async {
        return Err(Argument);
      }
      syncConnectionInitializer, asyncConnectionInitializer := sync, async;
      return Ok(this);
    }

    /** The guards of `PrepareConfiguration`. */
    function ConfigurationCheck(): (r: Result<Unit>)
      reads this
      ensures r.Ok? <==> (encryption || !(userCertificateValidationCallback || clientCertificatesCallback))
                         && !(passwordProvider && (settings.password.Some? || settings.passfile.Some?))
      ensures r.Err? ==> r.error == (if !encryption && (userCertificateValidationCallback || clientCertificatesCallback)
                                     then InvalidOperation else NotSupported)
    {
      if !encryption && (userCertificateValidationCallback || clientCertificatesCallback) then Err(InvalidOperation)
      else if passwordProvider && (settings.password.Some? || settings.passfile.Some?) then Err(NotSupported)
      else Ok(Unit)
    }

    /**
     * `Resolvers`: the chain, then a resolver built from the user mappings when there are
     * any, then the global user mappings when present.
     */
    method Resolvers(globalUserMappings: TypeInfoResolver?) returns (rs: seq<TypeInfoResolver>)
      ensures |rs| == |resolverChain| + (if |userMappings| > 0 then 1 else 0) + (if globalUserMappings != null then 1 else 0)
      ensures rs[..|resolverChain|] == resolverChain
      ensures |userMappings| > 0 ==> fresh(rs[|resolverChain|]) && rs[|resolverChain|].runtimeType == UserMapperResolver
      ensures globalUserMappings != null ==> rs[|rs| - 1] == globalUserMappings
    {
      rs := [];
      rs := rs + resolverChain;
      if |userMappings| > 0 {
        var built := new TypeInfoResolver(UserMapperResolver);
        rs := rs + [built];
      }
      if globalUserMappings != null {
        rs := rs + [globalUserMappings];
      }
    }

    /** `PrepareConfiguration`: the guards, then the configuration with the resolvers in order. */
    method PrepareConfiguration(globalUserMappings: TypeInfoResolver?) returns (r: Result<Configuration>)
      ensures r.Err? <==> ConfigurationCheck().Err?
      ensures r.Err? ==> r.error == ConfigurationCheck().error
      ensures r.Ok? ==> r.value.encryption == encryption && r.value.passwordProvider == passwordProvider
                        && r.value.logging == (if loggerFactory then Logging(sensitiveDataLogging) else NullConfiguration)
      ensures r.Ok? ==> r.value.successRefreshInterval == successRefreshInterval
                        && r.value.failureRefreshInterval == failureRefreshInterval
                        && r.value.connectionInitializers == syncConnectionInitializer
      ensures r.Ok? ==> |r.value.resolvers| == |resolverChain| + (if |userMappings| > 0 then 1 else 0)
                                               + (if globalUserMappings != null then 1 else 0)
                        && r.value.resolvers[..|resolverChain|] == resolverChain
      ensures r.Ok? && |userMappings| > 0 ==>
                fresh(r.value.resolvers[|resolverChain|]) && r.value.resolvers[|resolverChain|].runtimeType == UserMapperResolver
      ensures r.Ok? && globalUserMappings != null ==> r.value.resolvers[|r.value.resolvers| - 1] == globalUserMappings
    {
      if !encryption && (userCertificateValidationCallback || clientCertificatesCallback) {
        return Err(InvalidOperation);
      }
      if passwordProvider && (settings.password.Some? || settings.passfile.Some?) {
        return Err(NotSupported);
      }
      var resolvers := Resolvers(globalUserMappings);
      var logging := if loggerFactory then Logging(sensitiveDataLogging) else NullConfiguration;
      return Ok(Configuration(logging, encryption, resolvers, passwordProvider, successRefreshInterval,
                              failureRefreshInterval, syncConnectionInitializer));
    }

    /** `Build`: the configuration first, then the kind of data source the settings call for. */
    method Build(globalUserMappings: TypeInfoResolver?) returns (r: Result<DataSource>)
      ensures ConfigurationCheck().Err? ==> r == Err(ConfigurationCheck().error)
      ensures ConfigurationCheck().Ok? ==>
                (r.Ok? <==> SelectDataSource(settings).Ok?)
                && (r.Ok? ==> r.value.kind == SelectDataSource(settings).value)
                && (r.Err? ==> r.error == SelectDataSource(settings).error)
    {
      var config := PrepareConfiguration(globalUserMappings);
      if config.Err? {
        return Err(config.error);
      }
      var kind := SelectDataSource(settings);
      if kind.Err? {
        return Err(kind.error);
      }
      return Ok(DataSource(kind.value, config.value));
    }

    /** `BuildMultiHost`: a multi-host data source whatever the host, after the same guards. */
    method BuildMultiHost(globalUserMappings: TypeInfoResolver?) returns (r: Result<DataSource>)
      ensures ConfigurationCheck().Err? ==> r == Err(ConfigurationCheck().error)
      ensures ConfigurationCheck().Ok? ==>
                (r.Ok? <==> ValidateMultiHost(settings).Ok?)
                && (r.Ok? ==> r.value.kind == MultiHost)
                && (r.Err? ==> r.error == ValidateMultiHost(settings).error)
    {
      var config := PrepareConfiguration(globalUserMappings);
      if config.Err? {
        return Err(config.error);
      }
      var valid := ValidateMultiHost(settings);
      if valid.Err? {
        return Err(valid.error);
      }
      return Ok(DataSource(MultiHost, config.value));
    }
  }

  /**
   * Any sequence of `EnableArrays`, `EnableRanges` and `EnableMultiranges` calls leaves
   * exactly one range resolver, at the front.
   */
  lemma RangeOptInsLeaveOne(chain: seq<TypeInfoResolver>, added: seq<TypeInfoResolver>)
    requires AtMostOnePerType(chain) && added != []
    requires forall k | 0 <= k < |added| :: added[k].runtimeType == RangeResolver
    ensures var final := AddAll(chain, added);
            AtMostOnePerType(final) && final[0].runtimeType == RangeResolver
            && NoneOfType(final[1..], RangeResolver)
    decreases |added|
  {
    var front := AddAll(chain, added[..|added| - 1]);
    if |added| > 1 {
      RangeOptInsLeaveOne(chain, added[..|added| - 1]);
    } else {
      assert front == chain;
    }
    AddedKeepsOnePerType(front, added[|added| - 1]);
  }

  /** Resolvers added one after another through `AddTypeInfoResolver`. */
  function AddAll(chain: seq<TypeInfoResolver>, added: seq<TypeInfoResolver>): seq<TypeInfoResolver>
  {
    if added == [] then chain else Added(AddAll(chain, added[..|added| - 1]), added[|added| - 1])
  }
}
