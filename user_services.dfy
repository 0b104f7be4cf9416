/** The Groups, Roles and Users services: their descriptors, `add`
    (create, then fetch each created object), the relational lookups
    (a group's roles, a user's groups, ...) and the calls that link and unlink
    two objects. Arguments that may be an entity or a raw reference go through
    `ref_or_raise`, given here as `resolve` (None where it raises);
    `BaseService.get` is given as `fetch`, `make_query_str` as given strings or
    `commentQuery`, and the entity constructors as `construct`, keyed by the
    class they build. */
module UserServices {
  import opened JsonModel
  import opened Sanitizer
  import opened Transport
  import ClientApi

  datatype EntityClass = GroupEntity | RoleEntity | UserEntity

  /** What a BaseService is bound to: its URL base, its entity class, and the
      envelope keys for one item and for a collection. */
  datatype ServiceDescriptor = ServiceDescriptor(urlBase: string, entityClass: EntityClass,
                                                 entityKey: string, collectionKey: string)

  const GroupsService := ServiceDescriptor("Groups", GroupEntity, "group", "groups")
  const RolesService := ServiceDescriptor("Roles", RoleEntity, "role", "roles")
  const UsersService := ServiceDescriptor("Users", UserEntity, "user", "users")

  /** The descriptor of the service for each entity class. */
  function ServiceOf(e: EntityClass): ServiceDescriptor {
    match e
    case GroupEntity => GroupsService
    case RoleEntity => RolesService
    case UserEntity => UsersService
  }

  /** Each service is bound to its own class, and the three differ in URL base
      and in both envelope keys; each collection key is the item key plus "s". */
  lemma DescriptorsDistinct(e1: EntityClass, e2: EntityClass)
    ensures ServiceOf(e1).entityClass == e1
    ensures ServiceOf(e1).collectionKey == ServiceOf(e1).entityKey + "s"
    ensures e1 != e2 ==> ServiceOf(e1).urlBase != ServiceOf(e2).urlBase
                         && ServiceOf(e1).entityKey != ServiceOf(e2).entityKey
                         && ServiceOf(e1).collectionKey != ServiceOf(e2).collectionKey
  {
  }

  /** The dict `add` posts: `{"saveComment": ..., <entityKey>: input}`. */
  function AddPayload(d: ServiceDescriptor, input: Json, saveComment: string): map<string, Json> {
    map["saveComment" := JStr(saveComment), d.entityKey := input]
  }

  /** The references the POST of `add` returns, at `result.objRefs`. */
  function CreatedRefs(resp: Response): Result<seq<Json>> {
    match Classify(POST, resp)
    case Err(f) => Err(f)
    case Ok(reply) => Collection(reply, "objRefs")
  }

  /** `for ref in refs: out.append(self.get(ref)[0])`: stops at the first get
      that raises, or that returns nothing (IndexError). */
  function FetchAll<E>(refs: seq<Json>, fetch: Json -> Result<seq<E>>): Result<seq<E>>
    decreases |refs|
  {
    if refs == [] then Ok([])
    else match fetch(refs[0])
      case Err(f) => Err(f)
      case Ok(found) =>
        if found == [] then Err(Malformed)
        else match FetchAll(refs[1..], fetch)
          case Err(f) => Err(f)
          case Ok(rest) => Ok([found[0]] + rest)
  }

  /** Whether the get of one reference yields something to keep. */
  predicate Fetches<E>(fetch: Json -> Result<seq<E>>, ref: Json) {
    fetch(ref).Ok? && fetch(ref).value != []
  }

  /** `add` returns one object per created reference, in order, each the first
      thing `get` returns for it; it fails exactly when one of those gets does,
      and then with the failure of the first one. */
  lemma {:induction false} FetchAllShape<E>(refs: seq<Json>, fetch: Json -> Result<seq<E>>)
    ensures FetchAll(refs, fetch).Ok? <==> forall i | 0 <= i < |refs| :: Fetches(fetch, refs[i])
    ensures FetchAll(refs, fetch).Ok? ==>
              |FetchAll(refs, fetch).value| == |refs|
              && forall i | 0 <= i < |refs| :: FetchAll(refs, fetch).value[i] == fetch(refs[i]).value[0]
    ensures FetchAll(refs, fetch).Err? ==>
              exists i | 0 <= i < |refs| ::
                (forall j | 0 <= j < i :: Fetches(fetch, refs[j]))
                && !Fetches(fetch, refs[i])
                && FetchAll(refs, fetch).failure == (if fetch(refs[i]).Err? then fetch(refs[i]).failure else Malformed)
    decreases |refs|
  {
    if refs != [] {
      FetchAllShape(refs[1..], fetch);
      if Fetches(fetch, refs[0]) {
        var tail := FetchAll(refs[1..], fetch);
        if tail.Err? {
          var i :| 0 <= i < |refs[1..]|
                   && (forall j | 0 <= j < i :: Fetches(fetch, refs[1..][j]))
                   && !Fetches(fetch, refs[1..][i])
                   && tail.failure == (if fetch(refs[1..][i]).Err? then fetch(refs[1..][i]).failure else Malformed);
          assert forall j | 0 <= j < i + 1 :: Fetches(fetch, refs[j]) by {
            forall j | 0 <= j < i + 1 ensures Fetches(fetch, refs[j]) {
              if j > 0 {
                assert refs[j] == refs[1..][j - 1];
              }
            }
          }
          assert refs[i + 1] == refs[1..][i];
        } else {
          forall i | 0 <= i < |refs| ensures Fetches(fetch, refs[i]) {
            if i > 0 {
              assert refs[i] == refs[1..][i - 1];
            }
          }
        }
      } else {
        assert !Fetches(fetch, refs[0]);
      }
    }
  }

  /** The objects gathered so far in front of what the remaining gets give. */
  function Prepend<E>(done: seq<E>, rest: Result<seq<E>>): Result<seq<E>> {
    match rest
    case Err(f) => Err(f)
    case Ok(more) => Ok(done + more)
  }

  lemma PrependNothing<E>(rest: Result<seq<E>>)
    ensures Prepend([], rest) == rest
  {
    if rest.Ok? {
      assert [] + rest.value == rest.value;
    }
  }

  lemma PrependTwice<E>(done: seq<E>, x: E, rest: Result<seq<E>>)
    ensures Prepend(done, Prepend([x], rest)) == Prepend(done + [x], rest)
  {
    if rest.Ok? {
      assert done + ([x] + rest.value) == done + [x] + rest.value;
    }
  }

  /** The whole outcome of `add`. */
  function Created<E>(resp: Response, fetch: Json -> Result<seq<E>>): Result<seq<E>> {
    match CreatedRefs(resp)
    case Err(f) => Err(f)
    case Ok(refs) => FetchAll(refs, fetch)
  }

  /** `add(input, save_comment)`: POST to `baseurl + url_base`, then one get
      per returned reference, in order. `fetched` lists the references whose
      get was issued. */
  method Add<E>(c: ClientApi.Client, d: ServiceDescriptor, input: Json, saveComment: string,
                postResp: Response, fetch: Json -> Result<seq<E>>)
    returns (req: Request, fetched: seq<Json>, r: Result<seq<E>>)
    requires Shaped(input)
    ensures req == PostRequest(c.baseurl + d.urlBase, AddPayload(d, input, saveComment))
    ensures r == Created(postResp, fetch)
    ensures CreatedRefs(postResp).Err? ==> fetched == []
    ensures CreatedRefs(postResp).Ok? ==> fetched <= CreatedRefs(postResp).value
    ensures r.Ok? ==> fetched == CreatedRefs(postResp).value
    ensures r.Err? && CreatedRefs(postResp).Ok? ==>
              fetched != [] && !Fetches(fetch, fetched[|fetched| - 1])
              && forall j | 0 <= j < |fetched| - 1 :: Fetches(fetch, fetched[j])
  {
    req := PostRequest(c.baseurl + d.urlBase, AddPayload(d, input, saveComment));
    fetched := [];
    var refs := CreatedRefs(postResp);
    if refs.Err? {
      return req, fetched, Err(refs.failure);
    }
    var all: seq<E> := [];
    var i := 0;
    assert refs.value[0..] == refs.value;
    PrependNothing(FetchAll(refs.value, fetch));
    while i < |refs.value|
      invariant 0 <= i <= |refs.value|
      invariant fetched == refs.value[..i]
      invariant forall j | 0 <= j < i :: Fetches(fetch, refs.value[j])
      invariant FetchAll(refs.value, fetch) == Prepend(all, FetchAll(refs.value[i..], fetch))
    {
      var ref := refs.value[i];
      assert refs.value[i..][0] == ref && refs.value[i..][1..] == refs.value[i + 1..];
      var got := fetch(ref);
      fetched := fetched + [ref];
      assert fetched == refs.value[..i + 1];
      if got.Err? {
        return req, fetched, Err(got.failure);
      }
      if got.value == [] {
        return req, fetched, Err(Malformed);
      }
      PrependTwice(all, got.value[0], FetchAll(refs.value[i + 1..], fetch));
      all := all + [got.value[0]];
      i := i + 1;
    }
    assert refs.value[i..] == [];
    assert all + [] == all;
    assert fetched == refs.value;
    r := Ok(all);
  }

  /** The relational lookups: which sub-resource each reads, under which
      collection key, and which class it yields. */
  datatype Lookup = GroupRoles | GroupUsers | RoleGroups | RoleUsers | UserGroups | UserRoles

  function Yields(l: Lookup): EntityClass {
    match l
    case GroupRoles => RoleEntity
    case GroupUsers => UserEntity
    case RoleGroups => GroupEntity
    case RoleUsers => UserEntity
    case UserGroups => GroupEntity
    case UserRoles => RoleEntity
  }

  function Segment(l: Lookup): string {
    match l
    case GroupRoles => "/Roles"
    case GroupUsers => "/Users"
    case RoleGroups => "/Groups"
    case RoleUsers => "/Users"
    case UserGroups => "/Groups"
    case UserRoles => "/Roles"
  }

  function LookupKey(l: Lookup): string {
    match l
    case GroupRoles => "roles"
    case GroupUsers => "users"
    case RoleGroups => "groups"
    case RoleUsers => "users"
    case UserGroups => "groups"
    case UserRoles => "roles"
  }

  /** Each lookup reads the sub-resource named after the yielded class's
      service and decodes the same collection key that service lists under. */
  lemma LookupsMatchServices(l: Lookup)
    ensures Segment(l) == "/" + ServiceOf(Yields(l)).urlBase
    ensures LookupKey(l) == ServiceOf(Yields(l)).collectionKey
  {
  }

  /** `get_group_roles`, `get_group_users`, `get_role_groups`,
      `get_role_users`, `get_user_groups`, `get_user_roles`: resolve the owner,
      GET `baseurl + ref + segment + query`, and build one object of the class
      the lookup yields (`Group(...)`, `Role(...)` or `User(...)`, given as
      `construct`) per element of the collection, in order. The request depends
      on the owner only through its resolved reference. */
  method GetRelated<A, E>(c: ClientApi.Client, l: Lookup, owner: A, resolve: A -> Option<string>,
                          query: string, resp: Response, construct: EntityClass -> Json -> E)
    returns (req: Option<Request>, r: Result<seq<E>>)
    ensures resolve(owner).None? ==> req.None? && r == Err(MissingRef)
    ensures resolve(owner).Some? ==>
              req == Some(GetRequest(c.baseurl + resolve(owner).value + Segment(l) + query))
              && r == Fetched(resp, ServiceOf(Yields(l)).collectionKey, construct(Yields(l)))
  {
    var ownerRef := resolve(owner);
    if ownerRef.None? {
      return None, Err(MissingRef);
    }
    req := Some(GetRequest(c.baseurl + ownerRef.value + Segment(l) + query));
    LookupsMatchServices(l);
    r := FetchCollection(resp, LookupKey(l), construct(Yields(l)));
  }

  /** `delete_group_role`, `delete_group_user`, `delete_user_role`: resolve
      both arguments, then DELETE `baseurl + ref1 + "/" + ref2`, followed by
      the saveComment query string only when the comment is non-empty. */
  function DeleteLinkRequest<A>(c: ClientApi.Client, first: A, second: A, resolve: A -> Option<string>,
                                saveComment: string, commentQuery: string -> string): (r: Result<Request>)
    ensures resolve(first).None? || resolve(second).None? ==> r == Err(MissingRef)
    ensures resolve(first).Some? && resolve(second).Some? ==>
              r.Ok? && r.value.verb == DELETE && r.value.payload.None?
              && r.value.url == c.baseurl + resolve(first).value + "/" + resolve(second).value
                                + (if saveComment != "" then commentQuery(saveComment) else "")
  {
    match resolve(first)
    case None => Err(MissingRef)
    case Some(firstRef) =>
      match resolve(second)
      case None => Err(MissingRef)
      case Some(secondRef) =>
        var query := if saveComment != "" then commentQuery(saveComment) else saveComment;
        Ok(DeleteRequest(c.baseurl + firstRef + "/" + secondRef + query))
  }

  /** `add_group_role`, `add_group_user`, `add_user_role`: resolve both
      arguments, then PUT `{"saveComment": ...}` to `baseurl + ref1 + "/" + ref2`
      with the sanitizer skipped, so the comment is sent even when empty. */
  function AddLinkRequest<A>(c: ClientApi.Client, first: A, second: A, resolve: A -> Option<string>,
                             saveComment: string): (r: Result<Request>)
    ensures resolve(first).None? || resolve(second).None? ==> r == Err(MissingRef)
    ensures resolve(first).Some? && resolve(second).Some? ==>
              r.Ok? && r.value.verb == PUT
              && r.value.url == c.baseurl + resolve(first).value + "/" + resolve(second).value
              && r.value.payload == Some(JObj(map["saveComment" := JStr(saveComment)]))
  {
    match resolve(first)
    case None => Err(MissingRef)
    case Some(firstRef) =>
      match resolve(second)
      case None => Err(MissingRef)
      case Some(secondRef) =>
        Ok(PutRequest(c.baseurl + firstRef + "/" + secondRef, map["saveComment" := JStr(saveComment)], true))
  }

  /** Linking and unlinking (without a comment) address the same URL, and an
      empty comment survives the link only because the sanitizer is skipped:
      a sanitizing PUT of the same payload would drop it. */
  lemma LinkAddressing<A>(c: ClientApi.Client, first: A, second: A, resolve: A -> Option<string>,
                          commentQuery: string -> string)
    requires resolve(first).Some? && resolve(second).Some?
    ensures AddLinkRequest(c, first, second, resolve, "").value.url
            == DeleteLinkRequest(c, first, second, resolve, "", commentQuery).value.url
    ensures AddLinkRequest(c, first, second, resolve, "").value.payload
            == Some(JObj(map["saveComment" := JStr("")]))
    ensures PutRequest(AddLinkRequest(c, first, second, resolve, "").value.url,
                       map["saveComment" := JStr("")], false).payload == Some(JObj(map[]))
  {
    var p := map["saveComment" := JStr("")];
    assert SanitizeObject(p).Keys == {};
  }
}
