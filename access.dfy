/**
 * Admin access control: the API-key middleware that guards every admin path,
 * and the three permission classes that the admin views require.
 * The configured header name and secret are an explicit Config value.
 */
module Access {
  import opened Results
  import Users

  /** Paths under this prefix are the admin endpoints. */
  const AdminPathPrefix: string := "/api/railway/admin/"

  /** The prefix the WSGI layer puts in front of every HTTP header key in request.META. */
  const MetaPrefix: string := "HTTP_"

  /** Settings API_KEY_HEADER and API_KEY. */
  datatype Config = Config(apiKeyHeader: string, apiKey: string)

  /** The part of a request the middleware looks at: its path and its META dictionary. */
  datatype Request = Request(path: string, meta: map<string, string>)

  /** Either the wrapped handler is called, or a 401 response is returned in its place. */
  datatype Decision = Forward | Unauthorized

  /** Who sent the request: nobody logged in, or an authenticated user. */
  datatype Requester = Anonymous | Authenticated(user: Users.User)

  predicate IsAscii(s: string) {
    forall i :: 0 <= i < |s| ==> s[i] < 128 as char
  }

  predicate IsLowerAscii(c: char) {
    'a' <= c <= 'z'
  }

  /** One character of a header name as it appears in a META key: '-' becomes '_', ASCII letters are upper-cased. */
  function MetaChar(c: char): (d: char)
    requires c < 128 as char
    ensures c == '-' ==> d == '_'
    ensures d != '-' && !IsLowerAscii(d)
    ensures IsLowerAscii(c) ==> d as int == c as int - 32
    ensures c != '-' && !IsLowerAscii(c) ==> d == c
  {
    if c == '-' then '_'
    else if IsLowerAscii(c) then (c as int - 32) as char
    else c
  }

  /** A header name with every '-' replaced by '_', then upper-cased. */
  function MetaName(name: string): (m: string)
    requires IsAscii(name)
    ensures |m| == |name|
    ensures forall i :: 0 <= i < |name| ==> m[i] == MetaChar(name[i])
    ensures forall i :: 0 <= i < |m| ==> m[i] != '-' && !IsLowerAscii(m[i])
  {
    if name == [] then [] else [MetaChar(name[0])] + MetaName(name[1..])
  }

  /** The META key under which the configured header arrives. */
  function HeaderKey(name: string): (key: string)
    requires IsAscii(name)
    ensures |key| == |MetaPrefix| + |name|
    ensures MetaPrefix <= key
    ensures forall i :: 0 <= i < |name| ==> key[|MetaPrefix| + i] == MetaChar(name[i])
  {
    MetaPrefix + MetaName(name)
  }

  /** The default header name, rewritten character by character. */
  lemma DefaultMetaName()
    ensures MetaName("X-API-KEY") == "X_API_KEY"
  {
    var m := MetaName("X-API-KEY");
    assert m[0] == 'X' && m[1] == '_' && m[2] == 'A' && m[3] == 'P' && m[4] == 'I';
    assert m[5] == '_' && m[6] == 'K' && m[7] == 'E' && m[8] == 'Y';
  }

  /** A header key is the prefix followed by the rewritten name. */
  lemma HeaderKeyOf(name: string, m: string)
    requires IsAscii(name) && MetaName(name) == m
    ensures HeaderKey(name) == MetaPrefix + m
  {
  }

  /** The default header name maps to the key Django exposes it under. */
  lemma DefaultHeaderKey()
    ensures HeaderKey("X-API-KEY") == "HTTP_X_API_KEY"
  {
    DefaultMetaName();
    HeaderKeyOf("X-API-KEY", "X_API_KEY");
    PrefixedDefaultName();
  }

  /** The META prefix in front of the rewritten default name, spelled out. */
  lemma PrefixedDefaultName()
    ensures MetaPrefix + "X_API_KEY" == "HTTP_X_API_KEY"
  {
  }

  /** dict.get with a default. */
  function MetaGet(meta: map<string, string>, key: string, default: string): (v: string)
  {
    if key in meta then meta[key] else default
  }

  /**
   * AdminAPIKeyMiddleware.__call__: a request under the admin prefix reaches the
   * handler only when the header's value, read as "" when it is absent, equals the key.
   */
  function Middleware(cfg: Config, req: Request): (d: Decision)
    requires IsAscii(cfg.apiKeyHeader)
    ensures !(AdminPathPrefix <= req.path) ==> d == Forward
    ensures AdminPathPrefix <= req.path ==>
      (d == Forward <==>
        (HeaderKey(cfg.apiKeyHeader) in req.meta && req.meta[HeaderKey(cfg.apiKeyHeader)] == cfg.apiKey)
        || (HeaderKey(cfg.apiKeyHeader) !in req.meta && cfg.apiKey == ""))
  {
    if AdminPathPrefix <= req.path then
      var supplied := MetaGet(req.meta, HeaderKey(cfg.apiKeyHeader), "");
      if supplied != cfg.apiKey then Unauthorized else Forward
    else
      Forward
  }

  /** A request outside the admin prefix is forwarded whatever its headers say. */
  lemma NonAdminPathIgnoresHeaders(cfg: Config, path: string, meta1: map<string, string>, meta2: map<string, string>)
    requires IsAscii(cfg.apiKeyHeader)
    requires !(AdminPathPrefix <= path)
    ensures Middleware(cfg, Request(path, meta1)) == Middleware(cfg, Request(path, meta2)) == Forward
  {
  }

  /** AdminAPIKeyPermission: request.META.get(header) == API_KEY, where an absent header is None and equals no key. */
  predicate KeyPermission(cfg: Config, meta: map<string, string>)
    requires IsAscii(cfg.apiKeyHeader)
    ensures HeaderKey(cfg.apiKeyHeader) !in meta ==> !KeyPermission(cfg, meta)
    ensures KeyPermission(cfg, meta) ==> MetaGet(meta, HeaderKey(cfg.apiKeyHeader), "") == cfg.apiKey
  {
    var key := HeaderKey(cfg.apiKeyHeader);
    key in meta && meta[key] == cfg.apiKey
  }

  /**
   * The permission class never admits what the middleware refuses; the two agree
   * except that the middleware reads an absent header as "" and so lets it through
   * when the configured key is itself empty.
   */
  lemma PermissionAgreesWithMiddleware(cfg: Config, req: Request)
    requires IsAscii(cfg.apiKeyHeader)
    requires AdminPathPrefix <= req.path
    ensures KeyPermission(cfg, req.meta) ==> Middleware(cfg, req) == Forward
    ensures cfg.apiKey != "" ==> (Middleware(cfg, req) == Forward <==> KeyPermission(cfg, req.meta))
    ensures cfg.apiKey == "" && HeaderKey(cfg.apiKeyHeader) !in req.meta ==>
      Middleware(cfg, req) == Forward && !KeyPermission(cfg, req.meta)
  {
  }

  /** IsAuthenticated: an anonymous requester is refused. */
  predicate IsAuthenticated(who: Requester) {
    who.Authenticated?
  }

  /** IsAdminUser: authenticated and the user's is_admin property holds. */
  predicate AdminUserPermission(who: Requester)
    ensures AdminUserPermission(who) ==> IsAuthenticated(who) && Users.ValidRole(who.user.role)
    ensures who.Authenticated? && who.user.role == Users.DefaultRole ==> !AdminUserPermission(who)
  {
    who.Authenticated? && Users.IsAdmin(who.user)
  }

  /** The permission_classes of the admin views, checked together. */
  predicate AdminViewPermitted(cfg: Config, who: Requester, meta: map<string, string>)
    requires IsAscii(cfg.apiKeyHeader)
    ensures AdminViewPermitted(cfg, who, meta) <==> AdminUserPermission(who) && KeyPermission(cfg, meta)
    ensures HeaderKey(cfg.apiKeyHeader) !in meta ==> !AdminViewPermitted(cfg, who, meta)
  {
    IsAuthenticated(who) && AdminUserPermission(who) && KeyPermission(cfg, meta)
  }

  /** An admin request reaches the view's handler: middleware first, then the view's permissions. */
  predicate AdminRequestAdmitted(cfg: Config, req: Request, who: Requester)
    requires IsAscii(cfg.apiKeyHeader)
  {
    Middleware(cfg, req) == Forward && AdminViewPermitted(cfg, who, req.meta)
  }

  /**
   * An admin request is admitted exactly for an authenticated ADMIN user who sent
   * the configured key; a USER is refused even with the right key, and so is a
   * request that lacks the header.
   */
  lemma AdminRequestNeedsRoleAndKey(cfg: Config, req: Request, who: Requester)
    requires IsAscii(cfg.apiKeyHeader)
    requires AdminPathPrefix <= req.path
    ensures AdminRequestAdmitted(cfg, req, who) <==>
      who.Authenticated? && who.user.role == Users.RoleAdmin
      && HeaderKey(cfg.apiKeyHeader) in req.meta && req.meta[HeaderKey(cfg.apiKeyHeader)] == cfg.apiKey
    ensures HeaderKey(cfg.apiKeyHeader) !in req.meta ==> !AdminRequestAdmitted(cfg, req, who)
    ensures who.Authenticated? && who.user.role == Users.RoleUser ==> !AdminRequestAdmitted(cfg, req, who)
  {
    PermissionAgreesWithMiddleware(cfg, req);
  }
}
