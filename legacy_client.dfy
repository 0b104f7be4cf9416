/** Where menandmice/menandmice.py, the older copy of the client, differs from
    client.py: its entities are plain objects rather than dicts, so it builds
    an IdentityAccess's access entries itself and turns an IdentityAccess or a
    PropertyDefinition instance into its JSON dict before putting it in a
    payload. Everything else in that file (`sanitize_json`, the four verbs,
    `updateItem`, the access, history and definition reads) behaves as
    client.py does once the entity builders are abstracted as `build`, and
    shares its model. */
module LegacyClient {
  import opened JsonModel
  import opened Sanitizer
  import opened Transport
  import ClientApi

  /** An argument that may be an entity instance or already plain JSON. */
  datatype Arg<E> = Instance(obj: E) | Plain(json: Json)

  /** `if isinstance(x, Cls): x = json.loads(x.to_json())`. The serialisation
      of an instance is a JSON object, given here as `toJson`. */
  function ToWire<E>(arg: Arg<E>, toJson: E -> map<string, Json>): Json {
    match arg
    case Instance(o) => JObj(toJson(o))
    case Plain(j) => j
  }

  /** Every value `buildAccessEntries` would unpack with `**` is a dict. */
  predicate AllObjects(entries: seq<Json>) {
    forall i | 0 <= i < |entries| :: entries[i].JObj?
  }

  /** `IdentityAccess.buildAccessEntries`: nothing for a falsy input, one
      AccessEntry per element of a list, in order, and one for anything else.
      `AccessEntry(**x)` raises TypeError unless x is a dict, and then no
      entries are returned at all. */
  method BuildAccessEntries<E>(accessEntries: Json, build: map<string, Json> -> E) returns (r: Result<seq<E>>)
    ensures Falsy(accessEntries) ==> r == Ok([])
    ensures !Falsy(accessEntries) ==> (r.Ok? <==> AllObjects(AsList(accessEntries)))
    ensures r.Err? ==> r.failure == Malformed
    ensures !Falsy(accessEntries) && r.Ok? ==>
              |r.value| == |AsList(accessEntries)|
              && forall i | 0 <= i < |r.value| :: r.value[i] == build(AsList(accessEntries)[i].fields)
    ensures !Falsy(accessEntries) && !accessEntries.JArr? && r.Ok? ==>
              accessEntries.JObj? && r.value == [build(accessEntries.fields)]
  {
    var all: seq<E> := [];
    if !Falsy(accessEntries) {
      if accessEntries.JArr? {
        var entries := accessEntries.items;
        assert AsList(accessEntries) == entries;
        for n := 0 to |entries|
          invariant |all| == n
          invariant AllObjects(entries[..n])
          invariant forall i | 0 <= i < n :: entries[i].JObj? && all[i] == build(entries[i].fields)
        {
          if !entries[n].JObj? {
            assert !AllObjects(entries);
            return Err(Malformed);
          }
          all := all + [build(entries[n].fields)];
        }
        assert entries[..|entries|] == entries;
      } else {
        if !accessEntries.JObj? {
          assert AsList(accessEntries)[0] == accessEntries;
          return Err(Malformed);
        }
        all := all + [build(accessEntries.fields)];
      }
    }
    r := Ok(all);
  }

  /** `setItemAccess`: a single IdentityAccess instance is converted to its
      dict and then wrapped; a plain argument is sent as client.py sends it. */
  function SetItemAccessRequest<E>(c: ClientApi.Client, ref: string, identityAccess: Arg<E>,
                                   toJson: E -> map<string, Json>, objType: string,
                                   saveComment: string): (req: Request)
    requires Shaped(JArr(AsList(ToWire(identityAccess, toJson))))
    ensures req.verb == PUT && req.url == c.baseurl + ref + "/Access"
    ensures identityAccess.Plain? ==>
              req == ClientApi.SetItemAccessRequest(c, ref, identityAccess.json, objType, saveComment)
    ensures identityAccess.Instance? ==>
              req == ClientApi.SetItemAccessRequest(c, ref, JObj(toJson(identityAccess.obj)), objType, saveComment)
    ensures identityAccess.Instance? ==>
              req.payload.Some? && req.payload.value.JObj? && "identityAccess" in req.payload.value.fields
              && req.payload.value.fields["identityAccess"]
                 == JArr([JObj(SanitizeObject(toJson(identityAccess.obj)))])
  {
    ClientApi.SetItemAccessRequest(c, ref, ToWire(identityAccess, toJson), objType, saveComment)
  }

  /** `newCustomProperty`: a PropertyDefinition instance is converted to its
      dict before the (sanitizing) POST. */
  function NewCustomPropertyRequest<E>(c: ClientApi.Client, ref: string, definition: Arg<E>,
                                       toJson: E -> map<string, Json>, saveComment: string): (req: Request)
    requires Shaped(ToWire(definition, toJson))
    ensures req.verb == POST && req.url == c.baseurl + ref + "/PropertyDefinitions"
    ensures definition.Plain? ==>
              req == ClientApi.NewCustomPropertyRequest(c, ref, definition.json, saveComment)
    ensures definition.Instance? ==>
              req == ClientApi.NewCustomPropertyRequest(c, ref, JObj(toJson(definition.obj)), saveComment)
    ensures definition.Instance? ==>
              req.payload.Some? && req.payload.value.JObj?
              && ClientApi.Carries(req.payload.value.fields, "propertyDefinition", JObj(toJson(definition.obj)))
  {
    ClientApi.NewCustomPropertyRequest(c, ref, ToWire(definition, toJson), saveComment)
  }

  /** `updatePropertyDefinitions`: a PropertyDefinition instance is converted
      to its dict before the sanitizing PUT to `.../PropertyDefinitions/<name>`. */
  function UpdatePropertyDefinitionsRequest<E>(c: ClientApi.Client, ref: string, name: string,
                                               definition: Arg<E>, toJson: E -> map<string, Json>,
                                               updateExisting: bool, saveComment: string): (req: Request)
    requires Shaped(ToWire(definition, toJson))
    ensures req.verb == PUT && req.url == c.baseurl + ref + "/PropertyDefinitions/" + name
    ensures definition.Plain? ==>
              req == ClientApi.UpdatePropertyDefinitionsRequest(c, ref, name, definition.json,
                                                                updateExisting, saveComment)
    ensures definition.Instance? ==>
              req == ClientApi.UpdatePropertyDefinitionsRequest(c, ref, name, JObj(toJson(definition.obj)),
                                                                updateExisting, saveComment)
    ensures definition.Instance? ==>
              req.payload.Some? && req.payload.value.JObj?
              && ClientApi.Carries(req.payload.value.fields, "propertyDefinition", JObj(toJson(definition.obj)))
              && ("updateExisting" in req.payload.value.fields <==> updateExisting)
  {
    ClientApi.UpdatePropertyDefinitionsRequest(c, ref, name, ToWire(definition, toJson), updateExisting, saveComment)
  }
}
