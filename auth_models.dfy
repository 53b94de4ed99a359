/** The built-in models of the older authenticator package (auth/models.go):
    token data, which also carries the token's signature, and the fields
    the authenticator identifies clients and resource owners by. */
module AuthModels {
  import opened Wrappers
  import opened ObjectIds
  import opened Documents

  datatype TokenData = TokenData(signature: string, scope: seq<string>, expiresAt: Time, clientId: Id, resourceOwnerId: Option<Id>)

  datatype TokenKind = AccessTokenKind | RefreshTokenKind

  /** An access token or a refresh token: both store the same fields. */
  class Token {
    const kind: TokenKind
    var signature: string
    var expiresAt: Time
    var scope: seq<string>
    var clientId: Id
    var resourceOwnerId: Option<Id>

    constructor (kind: TokenKind)
      ensures this.kind == kind && signature == "" && scope == [] && expiresAt == 0
      ensures clientId == Zero && resourceOwnerId == None
    {
      this.kind := kind;
      signature := "";
      expiresAt := 0;
      scope := [];
      clientId := Zero;
      resourceOwnerId := None;
    }

    /** auth/models.go:46-48 and 81-83: tokens are identified by their
        signature and expire at their expiry field. */
    function DescribeToken(): (r: (string, string))
      ensures r.0 == "Signature" && r.1 == "ExpiresAt"
    {
      ("Signature", "ExpiresAt")
    }

    /** auth/models.go:51-59 and 86-94. */
    function GetTokenData(): TokenData
      reads this
    {
      TokenData(signature, scope, expiresAt, clientId, resourceOwnerId)
    }

    /** auth/models.go:62-68 and 97-103: the data read back is the data set. */
    method SetTokenData(data: TokenData)
      modifies this
      ensures GetTokenData() == data
    {
      signature := data.signature;
      scope := data.scope;
      expiresAt := data.expiresAt;
      clientId := data.clientId;
      resourceOwnerId := data.resourceOwnerId;
    }
  }

  datatype Application = Application(name: string, key: string, scope: string, redirectUri: string)
  {
    /** auth/models.go:136-138. */
    function DescribeClient(): (field: string)
      ensures field == "Key"
    {
      "Key"
    }

    /** auth/models.go:141-143: only the registered redirect URI is valid. */
    predicate ValidRedirectURI(uri: string)
      ensures ValidRedirectURI(uri) <==> uri == redirectUri
    {
      uri == redirectUri
    }
  }

  datatype User = User(name: string, email: string)
  {
    /** auth/models.go:172-174. */
    function DescribeResourceOwner(): (field: string)
      ensures field == "Email"
    {
      "Email"
    }
  }
}
