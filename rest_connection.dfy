/**
 * The REST connection of the `src/` lineage (src/Connection.php): its
 * configuration, the stack of query-cache scopes that `cache()` and `noCache()`
 * push and pop around a callable, how the cache settings of one command are
 * resolved against that stack, the `baseUrl` check of `init()`, and what one
 * request sends and returns.
 */
module RestConnection {
  import opened Php
  import opened Http

  /** A cache dependency, identified by name; how it invalidates entries is not modelled. */
  type Dependency = string

  /** One entry of `_queryCacheInfo`: `[duration, dependency]` pushed by `cache()`, or `false` pushed by `noCache()`. */
  datatype ScopeEntry = CacheScope(duration: int, dependency: Option<Dependency>) | NoCacheScope

  /**
   * The cache component (a yii CacheInterface): a key-value store holding what
   * commands store in it, the one-element array `[$result]`.
   */
  class Cache {
    var store: map<Value, seq<Reply>>

    constructor()
      ensures store == map[]
    {
      store := map[];
    }

    /** `get($key)`: the stored value, or None for the `false` of a miss. */
    method Get(key: Value) returns (v: Option<seq<Reply>>)
      ensures v == if key in store then Some(store[key]) else None
    {
      v := if key in store then Some(store[key]) else None;
    }

    /** `set($key, $value, $duration, $dependency)`; expiry is not modelled. */
    method Set(key: Value, value: seq<Reply>, duration: int, dependency: Option<Dependency>)
      modifies this
      ensures store == old(store)[key := value]
    {
      store := store[key := value];
    }
  }

  /** `[cache, duration, dependency]` as `getQueryCacheInfo` returns it. */
  datatype CacheInfo = CacheInfo(cache: Cache, duration: int, dependency: Option<Dependency>)

  /** The configurable properties of a connection. */
  datatype Config = Config(
    baseUrl: string,
    usePluralisation: bool,
    useFilterKeyword: bool,
    enableExceptions: bool,
    isTestMode: bool,
    enableQueryCache: bool,
    queryCacheDuration: int,
    itemsProperty: string,
    auth: Value)

  /** The defaults declared in src/Connection.php:53-121. */
  function DefaultConfig(baseUrl: string): Config
  {
    Config(baseUrl, true, true, false, false, false, 3600, "", Null)
  }

  /** The lower-case name of an HTTP method, as the command passes it around. */
  function MethodName(m: Method): string
  {
    match m
    case GET => "get"
    case HEAD => "head"
    case POST => "post"
    case PUT => "put"
    case DELETE => "delete"
  }

  /**
   * `new Connection($config)`: `BaseObject::__construct` assigns the configuration and then runs
   * `init()`, so a falsy base URL never yields a connection and a trailing '/' never survives.
   */
  method Connect(config: Config, transport: Transport, queryCache: Cache?, pluralize: string -> string)
    returns (r: Outcome<Connection>)
    ensures IsEmpty(Str(config.baseUrl)) <==> r.Err?
    ensures r.Err? ==> r.thrown == Thrown("InvalidConfigException", "The `baseUrl` config option must be set")
    ensures r.Ok? ==> fresh(r.value) && r.value.baseUrl == RTrimChar(config.baseUrl, '/') && r.value.queryCacheInfo == []
    ensures r.Ok? ==>
      && r.value.usePluralisation == config.usePluralisation && r.value.useFilterKeyword == config.useFilterKeyword
      && r.value.enableExceptions == config.enableExceptions && r.value.isTestMode == config.isTestMode
      && r.value.enableQueryCache == config.enableQueryCache && r.value.queryCacheDuration == config.queryCacheDuration
      && r.value.itemsProperty == config.itemsProperty && r.value.auth == config.auth
      && r.value.transport == transport && r.value.queryCache == queryCache && r.value.pluralize == pluralize
  {
    var c := new Connection(config, transport, queryCache, pluralize);
    var init := c.Init();
    if init.Err? {
      return Err(init.thrown);
    }
    r := Ok(c);
  }

  class Connection {
    var baseUrl: string
    const usePluralisation: bool
    const useFilterKeyword: bool
    const enableExceptions: bool
    const isTestMode: bool
    const enableQueryCache: bool
    const queryCacheDuration: int
    /** The `queryCache` component when it resolves to a CacheInterface, else null. */
    const queryCache: Cache?
    const itemsProperty: string
    /** The resolved `auth` value; resolving a closure is not modelled. */
    const auth: Value
    /** `Inflector::pluralize`. */
    const pluralize: string -> string
    const transport: Transport
    var queryCacheInfo: seq<ScopeEntry>

    constructor(config: Config, transport: Transport, queryCache: Cache?, pluralize: string -> string)
      ensures baseUrl == config.baseUrl && usePluralisation == config.usePluralisation
      ensures useFilterKeyword == config.useFilterKeyword && enableExceptions == config.enableExceptions
      ensures isTestMode == config.isTestMode && enableQueryCache == config.enableQueryCache
      ensures queryCacheDuration == config.queryCacheDuration && itemsProperty == config.itemsProperty
      ensures auth == config.auth && this.transport == transport && this.queryCache == queryCache
      ensures this.pluralize == pluralize && queryCacheInfo == []
    {
      baseUrl := config.baseUrl;
      usePluralisation := config.usePluralisation;
      useFilterKeyword := config.useFilterKeyword;
      enableExceptions := config.enableExceptions;
      isTestMode := config.isTestMode;
      enableQueryCache := config.enableQueryCache;
      queryCacheDuration := config.queryCacheDuration;
      itemsProperty := config.itemsProperty;
      auth := config.auth;
      this.transport := transport;
      this.queryCache := queryCache;
      this.pluralize := pluralize;
      queryCacheInfo := [];
    }

    /** `init()`: a falsy baseUrl is rejected; otherwise every trailing '/' is stripped. */
    method Init() returns (r: Outcome<()>)
      modifies this`baseUrl
      ensures IsEmpty(Str(old(baseUrl))) ==>
        r == Err(Thrown("InvalidConfigException", "The `baseUrl` config option must be set")) && baseUrl == old(baseUrl)
      ensures !IsEmpty(Str(old(baseUrl))) ==> r == Ok(()) && baseUrl == RTrimChar(old(baseUrl), '/')
    {
      if IsEmpty(Str(baseUrl)) {
        return Err(Thrown("InvalidConfigException", "The `baseUrl` config option must be set"));
      }
      baseUrl := RTrimChar(baseUrl, '/');
      r := Ok(());
    }

    /**
     * `cache($callable, $duration, $dependency)`: pushes a scope, runs the callable,
     * pops the scope whether the callable returned or threw, and passes its outcome on.
     * The callable is represented by the outcome it produces under a given scope stack.
     */
    method Cache(callable: seq<ScopeEntry> -> Outcome<Value>, duration: Option<int>, dependency: Option<Dependency>)
      returns (r: Outcome<Value>)
      modifies this`queryCacheInfo
      ensures queryCacheInfo == old(queryCacheInfo)
      ensures r == callable(old(queryCacheInfo) + [CacheScope(if duration.None? then queryCacheDuration else duration.value, dependency)])
    {
      queryCacheInfo := queryCacheInfo + [CacheScope(if duration.None? then queryCacheDuration else duration.value, dependency)];
      r := callable(queryCacheInfo);
      match r {
        case Ok(_) =>
          queryCacheInfo := queryCacheInfo[..|queryCacheInfo| - 1];
        case Err(_) =>
          queryCacheInfo := queryCacheInfo[..|queryCacheInfo| - 1];
      }
    }

    /** `noCache($callable)`: the same discipline with a `false` scope. */
    method NoCache(callable: seq<ScopeEntry> -> Outcome<Value>) returns (r: Outcome<Value>)
      modifies this`queryCacheInfo
      ensures queryCacheInfo == old(queryCacheInfo)
      ensures r == callable(old(queryCacheInfo) + [NoCacheScope])
    {
      queryCacheInfo := queryCacheInfo + [NoCacheScope];
      r := callable(queryCacheInfo);
      match r {
        case Ok(_) =>
          queryCacheInfo := queryCacheInfo[..|queryCacheInfo| - 1];
        case Err(_) =>
          queryCacheInfo := queryCacheInfo[..|queryCacheInfo| - 1];
      }
    }

    /**
     * The cache settings `getQueryCacheInfo($duration, $dependency)` resolves under a
     * scope stack: the innermost `cache()` scope fills the arguments passed as null.
     */
    function CacheInfoUnder(stack: seq<ScopeEntry>, duration: Option<int>, dependency: Option<Dependency>): (info: Option<CacheInfo>)
      ensures info.Some? ==> info.value.cache == queryCache && queryCache != null
    {
      if !enableQueryCache then None
      else
        var top := if stack == [] then NoCacheScope else stack[|stack| - 1];
        var d := if duration.None? && top.CacheScope? then Some(top.duration) else duration;
        var dep := if dependency.None? && top.CacheScope? then top.dependency else dependency;
        if d.Some? && d.value >= 0 && queryCache != null then Some(CacheInfo(queryCache, d.value, dep)) else None
    }

    /** `getQueryCacheInfo($duration, $dependency)` under the current stack. */
    function GetQueryCacheInfo(duration: Option<int>, dependency: Option<Dependency>): Option<CacheInfo>
      reads this
    {
      CacheInfoUnder(queryCacheInfo, duration, dependency)
    }

    /**
     * The request the handler is given. The Authorization header is sent when
     * `auth` is truthy, except by HEAD: the client's `head()` takes its third
     * argument, which holds that header, as request options instead.
     */
    function RequestFor(m: Method, path: string, query: Entries, body: Entries): (r: Request)
      ensures Php.Get(r.headers, StrKey("Authorization")).Some? <==> m != HEAD && Truthy(auth)
      ensures m != HEAD && Truthy(auth) ==> Php.Get(r.headers, StrKey("Authorization")) == Some(auth)
    {
      HttpRequest(m, path, query, body, if m != HEAD && Truthy(auth) then [(StrKey("Authorization"), auth)] else [])
    }

    /** What `request()` returns for a response: its data, or for a status that is not OK false or a RestException. */
    function ResponseOutcome(resp: Response): Outcome<Value>
    {
      if IsOk(resp) then Ok(resp.data)
      else if enableExceptions then Err(Thrown("RestException", resp.content))
      else Ok(Bool(false))
    }

    /** What `request()` returns when the transport has already seen `log`; in test mode nothing is sent and the answer is []. */
    function Answer(m: Method, path: string, query: Entries, body: Entries, log: seq<Request>): Outcome<Value>
    {
      if isTestMode then Ok(Arr([])) else ResponseOutcome(transport.respond(log, RequestFor(m, path, query, body)))
    }

    /** The transport's log after `request()`. */
    function Sent(m: Method, path: string, query: Entries, body: Entries, log: seq<Request>): seq<Request>
    {
      if isTestMode then log else log + [RequestFor(m, path, query, body)]
    }

    /** `request($method, $url, $data)`: a GET carries its parameters in the URL, the other methods in the body. */
    method Request(m: Method, path: string, query: Entries, body: Entries) returns (r: Outcome<Value>)
      modifies transport
      ensures transport.log == Sent(m, path, query, body, old(transport.log))
      ensures r == Answer(m, path, query, body, old(transport.log))
    {
      if isTestMode {
        return Ok(Arr([]));
      }
      var resp := transport.Send(RequestFor(m, path, query, body));
      if !IsOk(resp) {
        if enableExceptions {
          return Err(Thrown("RestException", resp.content));
        }
        return Ok(Bool(false));
      }
      r := Ok(resp.data);
    }

    /** `get($url, $data)`. */
    method Get(url: string, data: Entries) returns (r: Outcome<Value>)
      modifies transport
      ensures transport.log == Sent(GET, url, data, [], old(transport.log))
      ensures r == Answer(GET, url, data, [], old(transport.log))
    {
      r := Request(GET, url, data, []);
    }

    /** `post($url, $data)`. */
    method Post(url: string, data: Entries) returns (r: Outcome<Value>)
      modifies transport
      ensures transport.log == Sent(POST, url, [], data, old(transport.log))
      ensures r == Answer(POST, url, [], data, old(transport.log))
    {
      r := Request(POST, url, [], data);
    }

    /** `put($url, $data)`. */
    method Put(url: string, data: Entries) returns (r: Outcome<Value>)
      modifies transport
      ensures transport.log == Sent(PUT, url, [], data, old(transport.log))
      ensures r == Answer(PUT, url, [], data, old(transport.log))
    {
      r := Request(PUT, url, [], data);
    }

    /** `delete($url, $data)`. */
    method Delete(url: string, data: Entries) returns (r: Outcome<Value>)
      modifies transport
      ensures transport.log == Sent(DELETE, url, [], data, old(transport.log))
      ensures r == Answer(DELETE, url, [], data, old(transport.log))
    {
      r := Request(DELETE, url, [], data);
    }

    /**
     * What `head($url, $data)` returns when the transport has already seen `log`:
     * the response headers, whatever the status, unless the request threw. In
     * test mode there is no response object to read them from.
     */
    function HeadAnswer(url: string, data: Entries, log: seq<Request>): (r: Outcome<seq<(string, string)>>)
      ensures isTestMode ==> r.Err?
      ensures !isTestMode ==>
        var resp := transport.respond(log, RequestFor(HEAD, url, data, []));
        (r.Err? <==> !IsOk(resp) && enableExceptions) && (r.Ok? ==> r.value == resp.headers)
    {
      if isTestMode then Err(Thrown("TypeError", "head() must return a HeaderCollection"))
      else
        var resp := transport.respond(log, RequestFor(HEAD, url, data, []));
        if !IsOk(resp) && enableExceptions then Err(Thrown("RestException", resp.content)) else Ok(resp.headers)
    }

    /** `head($url, $data)`: one HEAD request whose parameters go into the URL. */
    method Head(url: string, data: Entries) returns (r: Outcome<seq<(string, string)>>)
      modifies transport
      ensures transport.log == Sent(HEAD, url, data, [], old(transport.log))
      ensures r == HeadAnswer(url, data, old(transport.log))
    {
      if isTestMode {
        return Err(Thrown("TypeError", "head() must return a HeaderCollection"));
      }
      var resp := transport.Send(RequestFor(HEAD, url, data, []));
      if !IsOk(resp) && enableExceptions {
        return Err(Thrown("RestException", resp.content));
      }
      r := Ok(resp.headers);
    }

    /** `pathInfo` after pluralisation: only a path without '/' is pluralised, and only when enabled. */
    function PluralisedPath(path: string): string
    {
      if usePluralisation && !Contains(path, '/') then pluralize(path) else path
    }
  }

  // --------------------------------------------------------------- lemmas

  /** A `noCache()` scope leaves a command without its own duration uncached. */
  lemma NoCacheScopeDisablesCaching(db: Connection, stack: seq<ScopeEntry>, dependency: Option<Dependency>)
    ensures db.CacheInfoUnder(stack + [NoCacheScope], None, dependency) == None
  {
  }

  /** Inside `cache($d)` with caching on, a command without its own settings uses the scope's duration and dependency. */
  lemma CacheScopeFillsNulls(db: Connection, stack: seq<ScopeEntry>, d: int, dep: Option<Dependency>)
    requires db.enableQueryCache && db.queryCache != null && d >= 0
    ensures db.CacheInfoUnder(stack + [CacheScope(d, dep)], None, None) == Some(CacheInfo(db.queryCache, d, dep))
  {
  }

  /** A command's own settings win over the scope, including a non-negative duration inside `noCache()`. */
  lemma OwnSettingsWin(db: Connection, stack: seq<ScopeEntry>, d: int, dep: Dependency)
    ensures db.CacheInfoUnder(stack, Some(d), Some(dep)) ==
      if db.enableQueryCache && d >= 0 && db.queryCache != null then Some(CacheInfo(db.queryCache, d, Some(dep))) else None
  {
  }

  /** Only a duration of 0 or more, with caching enabled and a cache component, yields cache settings. */
  lemma CacheInfoRequiresDuration(db: Connection, stack: seq<ScopeEntry>, duration: Option<int>, dependency: Option<Dependency>)
    ensures var info := db.CacheInfoUnder(stack, duration, dependency);
      info.Some? ==> db.enableQueryCache && db.queryCache != null && info.value.cache == db.queryCache && info.value.duration >= 0
    ensures !db.enableQueryCache ==> db.CacheInfoUnder(stack, duration, dependency) == None
    ensures duration.Some? && duration.value < 0 ==> db.CacheInfoUnder(stack, duration, dependency) == None
  {
  }

  /** A response that is not OK gives false, or a RestException carrying its content when exceptions are enabled. */
  lemma NotOkOutcome(db: Connection, resp: Response)
    requires !IsOk(resp)
    ensures db.ResponseOutcome(resp) == if db.enableExceptions then Err(Thrown("RestException", resp.content)) else Ok(Bool(false))
    ensures db.ResponseOutcome(resp) != Ok(resp.data) || resp.data == Bool(false)
  {
  }

  /** After `init()` the base URL ends in no '/', and initialising again changes nothing. */
  lemma InitStripsSlashes(url: string)
    ensures var t := RTrimChar(url, '/');
      (t == [] || t[|t| - 1] != '/') && RTrimChar(t, '/') == t && t <= url
  {
  }

  /** A base URL made only of slashes passes the check of `init()` and ends up empty. */
  lemma InitSlashOnlyBaseUrl()
    ensures !IsEmpty(Str("/")) && RTrimChar("/", '/') == ""
  {
  }

  /** A path that already contains '/' is never pluralised, so a folded `models/1` keeps its form. */
  lemma PluralisationSkipsNestedPaths(db: Connection, path: string)
    requires Contains(path, '/')
    ensures db.PluralisedPath(path) == path
  {
  }
}
