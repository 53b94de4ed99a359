/** The built-in models of the OAuth2 authenticator (flame/models.go) and
    its tools (flame/tools.go): token data carried in and out of the token
    models, the descriptions the authenticator reads, the migration of an
    access token from the query to the Authorization header (section 2.3
    and section 2.1 of RFC 6750), and the bootstrap of a first application
    and a first user. Password and secret hashing is not part of this model:
    secrets are kept as given. */
module Flame {
  import opened Wrappers
  import opened ObjectIds
  import opened Documents

  /** The data of an access or refresh token. */
  datatype TokenData = TokenData(scope: seq<string>, expiresAt: Time, clientId: Id, resourceOwnerId: Option<Id>)

  /** Which struct fields hold the client id and the expiry of a token. */
  datatype TokenDescription = TokenDescription(clientIdField: string, expiresAtField: string)

  datatype TokenKind = AccessTokenKind | RefreshTokenKind

  /** An access token or a refresh token: both store the same fields. */
  class Token {
    const kind: TokenKind
    var expiresAt: Time
    var scope: seq<string>
    var clientId: Id
    var resourceOwnerId: Option<Id>

    constructor (kind: TokenKind)
      ensures this.kind == kind && scope == [] && expiresAt == 0 && clientId == Zero && resourceOwnerId == None
    {
      this.kind := kind;
      expiresAt := 0;
      scope := [];
      clientId := Zero;
      resourceOwnerId := None;
    }

    /** flame/models.go:52-57 and 87-92: both kinds describe the same fields. */
    function DescribeToken(): (d: TokenDescription)
      ensures d.clientIdField == "ClientID" && d.expiresAtField == "ExpiresAt"
    {
      TokenDescription("ClientID", "ExpiresAt")
    }

    /** flame/models.go:60-67 and 95-102. */
    function GetTokenData(): TokenData
      reads this
    {
      TokenData(scope, expiresAt, clientId, resourceOwnerId)
    }

    /** flame/models.go:70-75 and 105-110: the data read back is the data set. */
    method SetTokenData(data: TokenData)
      modifies this
      ensures GetTokenData() == data
    {
      scope := data.scope;
      expiresAt := data.expiresAt;
      clientId := data.clientId;
      resourceOwnerId := data.resourceOwnerId;
    }
  }

  /** The client model. */
  datatype Application = Application(name: string, key: string, secret: string, redirectUri: string)
  {
    /** flame/models.go:147-151: clients are identified by their key. */
    function DescribeClient(): (field: string)
      ensures field == "Key"
    {
      "Key"
    }

    /** flame/models.go:154-156: only the registered redirect URI is valid. */
    predicate ValidRedirectURI(uri: string)
      ensures ValidRedirectURI(uri) <==> uri == redirectUri
    {
      uri == redirectUri
    }
  }

  /** The resource owner model. */
  datatype User = User(name: string, email: string, password: string)
  {
    /** flame/models.go:197-201: resource owners are identified by email. */
    function DescribeResourceOwner(): (field: string)
      ensures field == "Email"
    {
      "Email"
    }

    /** flame/models.go:209-213: the token carries the user's name only. */
    function DataForAccessToken(): (m: map<string, Value>)
      ensures m.Keys == {"name"} && m["name"] == Str(name)
    {
      map["name" := Str(name)]
    }
  }

  const AccessTokenParam := "access_token"
  const AuthorizationHeader := "Authorization"

  /** The first value of a key in a header or query, or "" when none. */
  function First(m: map<string, seq<string>>, key: string): (v: string)
    ensures v != "" ==> key in m && |m[key]| > 0 && v == m[key][0]
  {
    if key in m && |m[key]| > 0 then m[key][0] else ""
  }

  /** The header and the query after the migration of an access token. */
  function Migrated(header: map<string, seq<string>>, query: map<string, seq<string>>, remove: bool): (r: (map<string, seq<string>>, map<string, seq<string>>))
    ensures First(query, AccessTokenParam) == "" ==> r == (header, query)
    ensures First(query, AccessTokenParam) != "" ==>
      && First(r.0, AuthorizationHeader) == (if First(header, AuthorizationHeader) == "" then "Bearer " + First(query, AccessTokenParam) else First(header, AuthorizationHeader))
      && (forall k :: k != AuthorizationHeader ==> (k in r.0 <==> k in header) && (k in header ==> r.0[k] == header[k]))
      && (First(header, AuthorizationHeader) != "" ==> r.0 == header)
      && r.1 == (if remove then query - {AccessTokenParam} else query)
  {
    var token := First(query, AccessTokenParam);
    if token == "" then (header, query)
    else
      var h := if First(header, AuthorizationHeader) == "" then header[AuthorizationHeader := ["Bearer " + token]] else header;
      var q := if remove then query - {AccessTokenParam} else query;
      (h, q)
  }

  /** Migrating again changes nothing when the parameter was removed, and
      never changes the header once it carries the token. */
  lemma MigrateTwice(header: map<string, seq<string>>, query: map<string, seq<string>>, remove: bool)
    ensures var once := Migrated(header, query, remove);
      && Migrated(once.0, once.1, remove).0 == once.0
      && (remove ==> Migrated(once.0, once.1, remove) == once)
  {
    var once := Migrated(header, query, remove);
    if First(query, AccessTokenParam) != "" {
      assert First(once.0, AuthorizationHeader) != "";
      if remove {
        assert AccessTokenParam !in once.1;
      }
    }
  }

  /** A request as the migrator sees it. */
  class Request {
    var header: map<string, seq<string>>
    var query: map<string, seq<string>>

    constructor (header: map<string, seq<string>>, query: map<string, seq<string>>)
      ensures this.header == header && this.query == query
    {
      this.header := header;
      this.query := query;
    }
  }

  /** flame/tools.go:40-65: moves an access token from the query into the
      Authorization header of the request, before the next handler runs. */
  method MigrateToken(r: Request, remove: bool)
    modifies r
    ensures (r.header, r.query) == Migrated(old(r.header), old(r.query), remove)
  {
    var accessToken := First(r.query, AccessTokenParam);
    if accessToken != "" {
      if First(r.header, AuthorizationHeader) == "" {
        r.header := r.header[AuthorizationHeader := ["Bearer " + accessToken]];
      }
      if remove {
        r.query := r.query - {AccessTokenParam};
      }
    }
  }

  /** The applications of a name, in store order. */
  function Named(apps: seq<Application>, name: string): (r: seq<Application>)
    ensures forall a :: a in r <==> a in apps && a.name == name
    ensures |r| <= |apps|
    decreases |apps|
  {
    if apps == [] then []
    else
      var last := apps[|apps| - 1];
      assert apps == apps[..|apps| - 1] + [last];
      Named(apps[..|apps| - 1], name) + (if last.name == name then [last] else [])
  }

  const TooManyApplications := "to many applications with that name"

  /** The result of a bootstrap call and the store after it. */
  datatype Ensured<T> = Ensured(result: Result<T, string>, apps: seq<Application>)

  /** flame/tools.go:69-119: the key of the one application of that name,
      or a new application with the given key when there is none. */
  function EnsureApplication(apps: seq<Application>, name: string, key: string, secret: string,
                             validate: Application -> Option<string>): (r: Ensured<string>)
    ensures |Named(apps, name)| > 1 ==> r == Ensured(Err(TooManyApplications), apps)
    ensures |Named(apps, name)| == 1 ==> r == Ensured(Ok(Named(apps, name)[0].key), apps)
    ensures |Named(apps, name)| == 0 ==>
      var app := Application(name, key, secret, "");
      && (validate(app).Some? ==> r == Ensured(Err(validate(app).value), apps))
      && (validate(app).None? ==> r == Ensured(Ok(key), apps + [app]))
    ensures r.apps == apps || |r.apps| == |apps| + 1
  {
    var found := Named(apps, name);
    if |found| > 1 then Ensured(Err(TooManyApplications), apps)
    else if |found| == 1 then Ensured(Ok(found[0].key), apps)
    else
      var app := Application(name, key, secret, "");
      match validate(app)
      case Some(e) => Ensured(Err(e), apps)
      case None => Ensured(Ok(key), apps + [app])
  }

  /** Ensuring an application twice inserts it at most once: the second
      call finds the one the first inserted and returns its key. */
  lemma EnsureApplicationTwice(apps: seq<Application>, name: string, key: string, secret: string,
                               validate: Application -> Option<string>)
    requires EnsureApplication(apps, name, key, secret, validate).result.Ok?
    ensures var first := EnsureApplication(apps, name, key, secret, validate);
      EnsureApplication(first.apps, name, key, secret, validate) == first
  {
    var first := EnsureApplication(apps, name, key, secret, validate);
    if |Named(apps, name)| == 0 {
      var app := Application(name, key, secret, "");
      assert first.apps == apps + [app];
      assert (apps + [app])[..|apps|] == apps;
      assert Named(first.apps, name) == Named(apps, name) + [app];
    }
  }

  /** flame/tools.go:123-153: a first user is inserted only into an empty
      user collection, and only when it validates. */
  function EnsureFirstUser(users: seq<User>, name: string, email: string, password: string,
                           validate: User -> Option<string>): (r: (Option<string>, seq<User>))
    ensures |users| > 0 ==> r == (None, users)
    ensures |users| == 0 ==>
      var user := User(name, email, password);
      && (validate(user).Some? ==> r == (validate(user), users))
      && (validate(user).None? ==> r == (None, [user]))
  {
    if |users| > 0 then (None, users)
    else
      var user := User(name, email, password);
      match validate(user)
      case Some(e) => (Some(e), users)
      case None => (None, [user])
  }

  /** Ensuring a first user twice changes the users at most once. */
  lemma EnsureFirstUserTwice(users: seq<User>, name: string, email: string, password: string,
                             validate: User -> Option<string>)
    ensures var first := EnsureFirstUser(users, name, email, password, validate);
      |first.1| > 0 ==> EnsureFirstUser(first.1, name, email, password, validate) == (None, first.1)
  {
  }
}
