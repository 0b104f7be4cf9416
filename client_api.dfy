/** The operations `Client` offers on any object addressed by its reference:
    delete and update an item, read and set its access rules, read its change
    history, and list, create, update and delete its custom property
    definitions. Each is the request it sends plus, for the reads, how the
    response is turned into entities. The query strings that `make_query_str`
    builds from keyword arguments are taken as given strings, and the entity
    constructors (`Event(...)`, `PropertyDefinition(...)`, `ObjectAccess(...)`)
    as a `build` function. */
module ClientApi {
  import opened JsonModel
  import opened Sanitizer
  import opened Transport

  /** A client is its base URL, `http://<server>/mmws/api/`. */
  datatype Client = Client(baseurl: string)

  /** How a key of a payload comes out of `sanitize_json`: present exactly when
      its value is truthy, and then holding the sanitized value. */
  predicate Carries(sent: map<string, Json>, key: string, v: Json) {
    (key in sent <==> !Falsy(v)) && (key in sent ==> sent[key] == SanitizeValue(v))
  }

  /** `deleteItem(ref, **kwargs)`: a DELETE of the item itself, with no body,
      the query string following the reference. */
  function DeleteItemRequest(c: Client, ref: string, query: string): (req: Request)
    ensures req.verb == DELETE && req.payload.None?
    ensures req.url == c.baseurl + ref + query
  {
    DeleteRequest(c.baseurl + ref + query)
  }

  /** The dict `updateItem` builds, after wrapping a non-list `properties`. */
  function UpdateItemPayload(ref: string, properties: Json, objType: string, saveComment: string,
                             deleteUnspecified: bool): map<string, Json> {
    map["ref" := JStr(ref), "objType" := JStr(objType), "saveComment" := JStr(saveComment),
        "deleteUnspecified" := JBool(deleteUnspecified), "properties" := JArr(AsList(properties))]
  }

  /** `updateItem`: a sanitizing PUT to the item itself. */
  function UpdateItemRequest(c: Client, ref: string, properties: Json, objType: string, saveComment: string,
                             deleteUnspecified: bool): (req: Request)
    requires Shaped(JArr(AsList(properties)))
    ensures req.verb == PUT && req.url == c.baseurl + ref
    ensures req.payload.Some? && req.payload.value.JObj?
    ensures var sent := req.payload.value.fields;
      && sent.Keys <= {"ref", "objType", "saveComment", "deleteUnspecified", "properties"}
      && Carries(sent, "ref", JStr(ref))
      && Carries(sent, "objType", JStr(objType))
      && Carries(sent, "saveComment", JStr(saveComment))
      && ("deleteUnspecified" in sent <==> deleteUnspecified)
      && ("deleteUnspecified" in sent ==> sent["deleteUnspecified"] == JBool(true))
      && ("properties" in sent <==> properties != JArr([]))
      && ("properties" in sent ==>
            sent["properties"].JArr? && |sent["properties"].items| == |AsList(properties)|
            && forall i | 0 <= i < |AsList(properties)| ::
                 sent["properties"].items[i] == SanitizeValue(AsList(properties)[i]))
  {
    PutRequest(c.baseurl + ref, UpdateItemPayload(ref, properties, objType, saveComment, deleteUnspecified), false)
  }

  /** `baseurl + ref + "/Access" + query`. */
  function AccessUrl(c: Client, ref: string, query: string): string {
    c.baseurl + ref + "/Access" + query
  }

  /** `getItemAccess(ref, **kwargs)`: the GET it sends, and the object built
      from `result.objectAccess` of the response. */
  function GetItemAccess<E>(c: Client, ref: string, query: string, resp: Response, build: Json -> E)
    : (r: (Request, Result<E>))
    ensures r.0.verb == GET && r.0.payload.None? && r.0.url == c.baseurl + ref + "/Access" + query
    ensures resp.status == 200 && ResultField(resp.body, "objectAccess").Some? ==>
              r.1 == Ok(build(ResultField(resp.body, "objectAccess").value))
    ensures resp.status == 200 && ResultField(resp.body, "objectAccess").None? ==> r.1 == Err(Malformed)
    ensures resp.status == 204 ==> r.1 == Err(Malformed)
    ensures resp.status != 200 && resp.status != 204 ==> r.1 == Err(Failed(resp))
  {
    var access :=
      match Classify(GET, resp)
      case Err(f) => Err(f)
      case Ok(Notice(_)) => Err(Malformed)
      case Ok(Data(body)) =>
        match ResultField(body, "objectAccess")
        case Some(a) => Ok(build(a))
        case None => Err(Malformed);
    (GetRequest(AccessUrl(c, ref, query)), access)
  }

  /** The dict `setItemAccess` builds, after wrapping a single identity. */
  function SetItemAccessPayload(identityAccess: Json, objType: string, saveComment: string): map<string, Json> {
    map["objType" := JStr(objType), "saveComment" := JStr(saveComment),
        "identityAccess" := JArr(AsList(identityAccess))]
  }

  /** `setItemAccess`: a sanitizing PUT to the item's Access resource. */
  function SetItemAccessRequest(c: Client, ref: string, identityAccess: Json, objType: string,
                                saveComment: string): (req: Request)
    requires Shaped(JArr(AsList(identityAccess)))
    ensures req.verb == PUT && req.url == AccessUrl(c, ref, "")
    ensures req.payload.Some? && req.payload.value.JObj?
    ensures var sent := req.payload.value.fields;
      && sent.Keys <= {"objType", "saveComment", "identityAccess"}
      && Carries(sent, "objType", JStr(objType))
      && Carries(sent, "saveComment", JStr(saveComment))
      && ("identityAccess" in sent <==> identityAccess != JArr([]))
      && ("identityAccess" in sent ==>
            sent["identityAccess"].JArr? && |sent["identityAccess"].items| == |AsList(identityAccess)|
            && forall i | 0 <= i < |AsList(identityAccess)| ::
                 sent["identityAccess"].items[i] == SanitizeValue(AsList(identityAccess)[i]))
  {
    PutRequest(AccessUrl(c, ref, ""), SetItemAccessPayload(identityAccess, objType, saveComment), false)
  }

  /** `getItemHistory`: one Event per element of `result.events`, in order. */
  method GetItemHistory<E>(c: Client, ref: string, query: string, resp: Response, build: Json -> E)
    returns (req: Request, events: Result<seq<E>>)
    ensures req == GetRequest(c.baseurl + ref + "/History" + query)
    ensures events == Fetched(resp, "events", build)
  {
    req := GetRequest(c.baseurl + ref + "/History" + query);
    events := FetchCollection(resp, "events", build);
  }

  /** `baseurl + ref + "/PropertyDefinitions"`, followed by `"/" + name` when
      the name is truthy. */
  function PropertyDefinitionsUrl(c: Client, ref: string, name: string): string {
    if name != "" then c.baseurl + ref + "/PropertyDefinitions/" + name
    else c.baseurl + ref + "/PropertyDefinitions"
  }

  /** `getPropertyDefinitions`: one definition per element of
      `result.propertyDefinitions`, in order. */
  method GetPropertyDefinitions<E>(c: Client, ref: string, name: string, resp: Response, build: Json -> E)
    returns (req: Request, definitions: Result<seq<E>>)
    ensures req.verb == GET && req.payload.None?
    ensures name != "" ==> req.url == c.baseurl + ref + "/PropertyDefinitions/" + name
    ensures name == "" ==> req.url == c.baseurl + ref + "/PropertyDefinitions"
    ensures definitions == Fetched(resp, "propertyDefinitions", build)
  {
    var url := "";
    if name != "" {
      url := c.baseurl + ref + "/PropertyDefinitions/" + name;
    } else {
      url := c.baseurl + ref + "/PropertyDefinitions";
    }
    req := GetRequest(url);
    definitions := FetchCollection(resp, "propertyDefinitions", build);
  }

  /** `newCustomProperty`: a POST (always sanitized) of the definition. */
  function NewCustomPropertyRequest(c: Client, ref: string, definition: Json, saveComment: string): (req: Request)
    requires Shaped(definition)
    ensures req.verb == POST && req.url == PropertyDefinitionsUrl(c, ref, "")
    ensures req.payload.Some? && req.payload.value.JObj?
    ensures var sent := req.payload.value.fields;
      && sent.Keys <= {"saveComment", "propertyDefinition"}
      && Carries(sent, "saveComment", JStr(saveComment))
      && Carries(sent, "propertyDefinition", definition)
  {
    PostRequest(PropertyDefinitionsUrl(c, ref, ""),
                map["saveComment" := JStr(saveComment), "propertyDefinition" := definition])
  }

  /** `updatePropertyDefinitions`: a sanitizing PUT to the named definition;
      the name is appended even when it is empty. */
  function UpdatePropertyDefinitionsRequest(c: Client, ref: string, name: string, definition: Json,
                                            updateExisting: bool, saveComment: string): (req: Request)
    requires Shaped(definition)
    ensures req.verb == PUT && req.url == c.baseurl + ref + "/PropertyDefinitions/" + name
    ensures req.payload.Some? && req.payload.value.JObj?
    ensures var sent := req.payload.value.fields;
      && sent.Keys <= {"updateExisting", "saveComment", "propertyDefinition"}
      && ("updateExisting" in sent <==> updateExisting)
      && ("updateExisting" in sent ==> sent["updateExisting"] == JBool(true))
      && Carries(sent, "saveComment", JStr(saveComment))
      && Carries(sent, "propertyDefinition", definition)
  {
    PutRequest(c.baseurl + ref + "/PropertyDefinitions/" + name,
               map["updateExisting" := JBool(updateExisting), "saveComment" := JStr(saveComment),
                   "propertyDefinition" := definition],
               false)
  }

  /** `deletePropertyDefinition`: a DELETE with no body of
      `.../PropertyDefinitions/<name>`, the name appended even when empty, and
      the save comment, when non-empty, after a bare "?". */
  function DeletePropertyDefinitionRequest(c: Client, ref: string, name: string, saveComment: string)
    : (req: Request)
    ensures req.verb == DELETE && req.payload.None?
    ensures saveComment == "" ==> req.url == c.baseurl + ref + "/PropertyDefinitions/" + name
    ensures saveComment != "" ==> req.url == c.baseurl + ref + "/PropertyDefinitions/" + name + "?" + saveComment
  {
    var query := if saveComment != "" then "?" + saveComment else "";
    DeleteRequest(c.baseurl + ref + "/PropertyDefinitions/" + name + query)
  }

  /** Updating and deleting an item address the item itself; the delete's
      query string is the only thing that follows it. */
  lemma ItemAddressing(c: Client, ref: string, query: string, properties: Json, objType: string,
                       saveComment: string, deleteUnspecified: bool)
    requires Shaped(JArr(AsList(properties)))
    ensures DeleteItemRequest(c, ref, query).url
            == UpdateItemRequest(c, ref, properties, objType, saveComment, deleteUnspecified).url + query
    ensures UpdateItemRequest(c, ref, properties, objType, saveComment, deleteUnspecified).url == c.baseurl + ref
  {
  }

  /** Reading and setting access rules address the same Access resource; the
      read's query string is the only thing that follows it. */
  lemma AccessAddressing<E>(c: Client, ref: string, query: string, resp: Response, build: Json -> E,
                            identityAccess: Json, objType: string, saveComment: string)
    requires Shaped(JArr(AsList(identityAccess)))
    ensures GetItemAccess(c, ref, query, resp, build).0.url
            == SetItemAccessRequest(c, ref, identityAccess, objType, saveComment).url + query
    ensures SetItemAccessRequest(c, ref, identityAccess, objType, saveComment).url == c.baseurl + ref + "/Access"
  {
  }

  /** A named definition is read, updated and deleted (without a comment) at
      one URL; a comment is the only thing the delete adds after it. New
      definitions are posted where the unnamed listing is read. */
  lemma PropertyDefinitionAddressing(c: Client, ref: string, name: string, definition: Json,
                                     updateExisting: bool, saveComment: string)
    requires name != ""
    requires Shaped(definition)
    ensures UpdatePropertyDefinitionsRequest(c, ref, name, definition, updateExisting, saveComment).url
            == PropertyDefinitionsUrl(c, ref, name)
            == DeletePropertyDefinitionRequest(c, ref, name, "").url
    ensures saveComment != "" ==>
              DeletePropertyDefinitionRequest(c, ref, name, saveComment).url
              == PropertyDefinitionsUrl(c, ref, name) + "?" + saveComment
    ensures NewCustomPropertyRequest(c, ref, definition, saveComment).url
            == PropertyDefinitionsUrl(c, ref, "")
  {
  }

  /** With an empty name the listing drops the trailing "/" but the update and
      the delete keep it, so they do not address the listing. */
  lemma EmptyNameAddressing(c: Client, ref: string, definition: Json, updateExisting: bool)
    requires Shaped(definition)
    ensures UpdatePropertyDefinitionsRequest(c, ref, "", definition, updateExisting, "").url
            == DeletePropertyDefinitionRequest(c, ref, "", "").url
            == PropertyDefinitionsUrl(c, ref, "") + "/"
  {
  }

  /** Distinct names get distinct definition URLs under one reference. */
  lemma {:induction false} PropertyDefinitionsUrlInjective(c: Client, ref: string, n1: string, n2: string)
    requires PropertyDefinitionsUrl(c, ref, n1) == PropertyDefinitionsUrl(c, ref, n2)
    ensures n1 == n2
  {
    var base := c.baseurl + ref + "/PropertyDefinitions";
    var u := PropertyDefinitionsUrl(c, ref, n1);
    if n1 != "" && n2 != "" {
      assert u == base + ("/" + n1) == base + ("/" + n2);
      assert u[|base| + 1..] == n1 && u[|base| + 1..] == n2;
    }
  }
}
