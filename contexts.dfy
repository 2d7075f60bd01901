/**
  The security context (boson/context.py): who is acting, with which roles,
  under which request id, whether with administrative rights, and the database
  session it lazily obtains.

  The roles list is an object of its own, because the context shares it: a
  non-empty list passed in is kept (not copied), `to_dict` hands it out, and
  `elevated` shares it with the copy it returns.
 */
module Contexts {
  import opened Wrappers
  import opened Text

  /** A database session object. */
  class DbSession {
    constructor ()
    {
    }
  }

  /**
    The module-level `get_session()` of boson/db/api.py that the `session`
    property calls. It counts its calls and answers `result`; the function in
    the repository is a placeholder whose answer is `None` (`null`).
   */
  class SessionSource {
    var calls: nat
    const result: DbSession?

    constructor (result: DbSession?)
      ensures this.result == result && calls == 0
    {
      this.result := result;
      calls := 0;
    }

    method GetSession() returns (s: DbSession?)
      modifies this
      ensures s == result && calls == old(calls) + 1
    {
      s := result;
      calls := calls + 1;
    }
  }

  /** A Python list of role names, shared by reference. */
  class RoleList {
    var items: seq<string>

    constructor (items: seq<string>)
      ensures this.items == items
    {
      this.items := items;
    }
  }

  /** `'admin' in [r.lower() for r in roles]`. */
  function ContainsAdmin(roles: seq<string>): (b: bool)
    ensures b <==> exists i :: 0 <= i < |roles| && Lower(roles[i]) == "admin"
  {
    if roles == [] then false
    else Lower(roles[0]) == "admin" || ContainsAdmin(roles[1..])
  }

  /** A role counts as `admin` exactly when it spells "admin" in any mix of letter cases. */
  lemma AdminRoleAnyCase(role: string)
    ensures Lower(role) == "admin" <==>
              |role| == 5 && forall i :: 0 <= i < 5 ==> role[i] == "admin"[i] || role[i] == "ADMIN"[i]
  {
    LowerMatches(role, "admin");
    if |role| == 5 {
      forall i | 0 <= i < 5
        ensures (role[i] == "admin"[i] || role[i] as int == "admin"[i] as int - 32)
            <==> (role[i] == "admin"[i] || role[i] == "ADMIN"[i])
      {
        assert "ADMIN"[i] as int == "admin"[i] as int - 32;
      }
    }
  }

  /** The `is_admin` a context is built with: an explicit value wins, else whether some role is `admin`. */
  function DeriveIsAdmin(roles: seq<string>, isAdmin: Option<bool>): (b: bool)
    ensures isAdmin.Some? ==> b == isAdmin.value
    ensures isAdmin.None? ==> (b <==> exists i :: 0 <= i < |roles| && Lower(roles[i]) == "admin")
  {
    if isAdmin.Some? then isAdmin.value else ContainsAdmin(roles)
  }

  /** `request_id or generate_request_id()`, where the generated id is `"req-"` and a fresh UUID. */
  function RequestId(requestId: Option<string>, uuid: string): (id: string)
    ensures requestId.Some? && requestId.value != "" ==> id == requestId.value
    ensures requestId.None? || requestId.value == "" ==> id == "req-" + uuid
    ensures id != ""
  {
    if requestId.Some? && requestId.value != "" then requestId.value else "req-" + uuid
  }

  /** The values `to_dict` puts in its dictionary. */
  datatype Entry = OptText(o: Option<string>) | Text(s: string) | List(roles: RoleList) | Flag(b: bool)

  class Context {
    var user: Option<string>
    var tenant: Option<string>
    var roles: RoleList
    var requestId: string
    var isAdmin: bool
    /** `_session`: the session obtained so far, if any. */
    var session: DbSession?

    /**
      `Context.__init__`. Missing or empty roles become a new empty list; a
      missing or empty request id becomes `"req-"` and `uuid`; `is_admin`
      follows `DeriveIsAdmin`; there is no session yet.
     */
    constructor (user: Option<string>, tenant: Option<string>, roles: RoleList?,
                 requestId: Option<string>, isAdmin: Option<bool>, uuid: string)
      ensures this.user == user && this.tenant == tenant
      ensures roles != null && roles.items != [] ==> this.roles == roles
      ensures roles == null || roles.items == [] ==> fresh(this.roles) && this.roles.items == []
      ensures this.requestId == RequestId(requestId, uuid)
      ensures this.isAdmin == DeriveIsAdmin(this.roles.items, isAdmin)
      ensures session == null
    {
      var kept: RoleList;
      if roles != null && roles.items != [] {
        kept := roles;
      } else {
        kept := new RoleList([]);
      }
      this.user := user;
      this.tenant := tenant;
      this.roles := kept;
      this.requestId := RequestId(requestId, uuid);
      this.isAdmin := DeriveIsAdmin(kept.items, isAdmin);
      this.session := null;
    }

    /** `copy.copy`: a new context whose attributes are those of `other`, the role list shared. */
    constructor Copy(other: Context)
      ensures user == other.user && tenant == other.tenant && roles == other.roles
      ensures requestId == other.requestId && isAdmin == other.isAdmin && session == other.session
    {
      user := other.user;
      tenant := other.tenant;
      roles := other.roles;
      requestId := other.requestId;
      isAdmin := other.isAdmin;
      session := other.session;
    }

    /** `to_dict`: exactly the five keys, each holding the context's value (the role list itself, not a copy). */
    function ToDict(): (d: map<string, Entry>)
      reads this
      ensures d.Keys == {"user", "tenant", "roles", "request_id", "is_admin"}
      ensures d["user"] == OptText(user) && d["tenant"] == OptText(tenant)
      ensures d["roles"] == List(roles) && d["request_id"] == Text(requestId)
      ensures d["is_admin"] == Flag(isAdmin)
    {
      map["user" := OptText(user), "tenant" := OptText(tenant), "roles" := List(roles),
          "request_id" := Text(requestId), "is_admin" := Flag(isAdmin)]
    }

    /**
      `elevated`, as written: a shallow copy with `is_admin` set, and `"admin"`
      appended to the role list unless some role already spells it. The list
      is shared, so the original context sees the appended role too.
     */
    method Elevated() returns (e: Context)
      modifies roles
      ensures fresh(e)
      ensures e.user == user && e.tenant == tenant && e.requestId == requestId && e.session == session
      ensures e.isAdmin
      ensures e.roles == roles
      ensures roles.items == if ContainsAdmin(old(roles.items)) then old(roles.items)
                             else old(roles.items) + ["admin"]
      ensures unchanged(this)
    {
      e := new Context.Copy(this);
      e.isAdmin := true;
      if !ContainsAdmin(e.roles.items) {
        e.roles.items := e.roles.items + ["admin"];
      }
    }

    /**
      `elevated` as evidently intended: the copy gets a role list of its own,
      so the original context and its roles are left as they were.
     */
    method ElevatedIsolated() returns (e: Context)
      ensures fresh(e) && fresh(e.roles)
      ensures e.user == user && e.tenant == tenant && e.requestId == requestId && e.session == session
      ensures e.isAdmin
      ensures e.roles.items == if ContainsAdmin(roles.items) then roles.items else roles.items + ["admin"]
    {
      e := new Context.Copy(this);
      e.isAdmin := true;
      var items := if ContainsAdmin(roles.items) then roles.items else roles.items + ["admin"];
      e.roles := new RoleList(items);
    }

    /**
      The `session` property: ask `get_session` only while no session is held,
      keep what it answers, and return the held session.
     */
    method Session(source: SessionSource) returns (s: DbSession?)
      modifies this`session, source
      ensures old(session) != null ==> s == old(session) && source.calls == old(source.calls)
      ensures old(session) == null ==> s == source.result && source.calls == old(source.calls) + 1
      ensures session == s
    {
      if session == null {
        session := source.GetSession();
      }
      s := session;
    }
  }

  /** `get_admin_context`: no user or tenant, the single role `admin`, administrative rights. */
  method GetAdminContext(uuid: string) returns (c: Context)
    ensures fresh(c) && fresh(c.roles)
    ensures c.user == None && c.tenant == None
    ensures c.roles.items == ["admin"] && c.isAdmin
    ensures c.requestId == "req-" + uuid && c.session == null
  {
    var roles := new RoleList(["admin"]);
    c := new Context(None, None, roles, None, Some(true), uuid);
  }

  /**
    Elevating a non-admin context with roles `one` leaves the original context
    with roles `one, admin` while its own `is_admin` stays false.
   */
  method ElevationLeaksAdminRole(uuid: string) returns (original: Context, elevated: Context)
    ensures original.roles.items == ["one", "admin"] && !original.isAdmin
    ensures elevated.isAdmin && elevated.roles == original.roles
  {
    var roles := new RoleList(["one"]);
    original := new Context(Some("user"), Some("tenant"), roles, Some("request_id"), Some(false), uuid);
    assert !ContainsAdmin(["one"]) by {
      assert Lower("one") != "admin" by { assert |Lower("one")| == 3; }
    }
    elevated := original.Elevated();
  }

  /** The role checks the unit tests rely on: `aDmIn` counts as admin, `one` and `two` do not. */
  lemma RoleExamples()
    ensures ContainsAdmin(["one", "aDmIn", "two"])
    ensures !ContainsAdmin(["one", "two"])
    ensures !ContainsAdmin([])
  {
    assert Lower("aDmIn") == "admin" by { AdminRoleAnyCase("aDmIn"); }
    assert Lower("one") != "admin" by { assert |Lower("one")| == 3; }
    assert Lower("two") != "admin" by { assert |Lower("two")| == 3; }
    assert ContainsAdmin(["one", "aDmIn", "two"]) by {
      assert Lower(["one", "aDmIn", "two"][1]) == "admin";
    }
  }
}
