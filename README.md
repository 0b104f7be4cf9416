# Men&Mice web API client: request and response logic

A Dafny model of the request/response core of the Python client for the
Men&Mice DNS/IPAM REST API (`http://<server>/mmws/api/`). The model covers
five parts:

- the payload sanitizer `sanitize_json`, which deletes keys that hold None or
  a falsy value;
- the status mapping of the four verbs `get`, `post`, `put` and `delete`;
- the URLs and payloads of the cross-cutting operations: item update and
  delete, access rules, change history and custom property definitions;
- the loops that decode a response collection into entities;
- the Groups, Roles and Users services: their descriptors, create-then-fetch
  `add`, relational lookups, and link/unlink calls.

The HTTP session is abstract. A call is modelled as the `Request` it puts on
the wire plus the `Response` it is handed. The helpers of `menandmice/base.py`
are not part of this model. Where the code calls them, the model takes them
as parameters:

- `make_query_str`: the query strings arrive as strings, or as
  `commentQuery` for the saveComment query of the unlink calls;
- `ref_or_raise`: `resolve`, which returns None where the helper raises;
- the entity constructors and `json_to_class`: `build`, or `construct` (keyed by entity class) for the relational lookups of the user services;
- `BaseService.get`: `fetch`;
- `to_json`: `toJson`.

Modules, one per file:

- `JsonModel` (json_model.dfy): decoded JSON values. A JSON object is a Python
  dict, modelled as `map<string, Json>`. The file also holds Python's truth
  test (`Falsy`) and the list coercion `if not isinstance(x, list): x = [x]`
  (`AsList`).
- `Sanitizer` (sanitizer.dfy): `sanitize_json`. The specification functions
  say what one pass leaves. The methods walk a snapshot of the keys, as
  Python 2's `items()` does, deleting or recursing.
- `Transport` (transport.dfy): verbs, the status mapping, the sanitizing
  POST/PUT and the decoding of `result.<key>` collections.
- `ClientApi` (client_api.dfy): the operations of `Client` in
  menandmice/client.py that take an object reference.
- `LegacyClient` (legacy_client.dfy): the parts of menandmice/menandmice.py
  that differ from client.py. These are `buildAccessEntries` and the
  conversion of an entity instance to its JSON dict before it goes into a
  payload. The rest of that file behaves as client.py does once the entity
  builders are abstracted as `build`, and it shares the client.py model:
  `sanitize_json` at 179-190, the verbs at 192-261, `updateItem` at 267-277,
  `getItemAccess` at 282-288 and `getItemHistory`/`getPropertyDefinitions` at
  306-329. The only differences are that these go through `json_to_class`
  (`buildAccess`, `buildEvent`, `buildDefinition`) where client.py calls the
  constructors directly, and that client.py also pretty-prints the access
  result.
- `UserServices` (user_services.dfy): menandmice/users.py.

The sanitizer tests each value before it recurses into it, so it is not
idempotent. `{"a": {"b": None}}` becomes `{"a": {}}`, and a second pass
removes `"a"`. The model proves this behaviour of the code (`EmptiedDictKept`).
It also proves exactly what one pass can leave behind
(`SanitizeLeavesOnlyEmptiedDicts`) and when a pass changes nothing
(`SanitizeFixedPoint`). It does not claim idempotence.

## Model

| member | source | states |
|---|---|---|
| `Sanitizer.SanitizeObject` | menandmice/client.py:175-179 | a key survives exactly when it was present with a truthy value, never a None, "", 0, False, [] or {} one; each survivor holds its value sanitized; no key is added |
| `Sanitizer.SanitizeValue` | menandmice/client.py:180-184 | a retained scalar is unchanged, a retained list keeps its length, a retained dict keeps a subset of its keys; a truthy value can turn falsy only by being a dict that the pass emptied to `{}` |
| `Sanitizer.SanitizeJson` | menandmice/client.py:174-185 | the in-place loop over a snapshot of the keys, deleting None and falsy values and recursing into lists and dicts, yields exactly `SanitizeObject` of the input, on every input that does not make the source raise |
| `Sanitizer.SanitizeEach` | menandmice/client.py:180-182 | sanitizing every element of a retained list gives a list of the same length whose i-th element is the i-th input element sanitized |
| `Sanitizer.SanitizeFixedPoint` | menandmice/client.py:174-185 | a pass leaves a value unchanged if and only if no key anywhere in its tree holds a falsy value |
| `Sanitizer.SanitizeObjectFixedPoint` | menandmice/client.py:175-179 | the same if-and-only-if for a dict: sanitizing returns it unchanged exactly when none of its keys, at any depth, holds a falsy value |
| `Sanitizer.SanitizeLeavesOnlyEmptiedDicts` | menandmice/client.py:176-184 | after one pass, every key anywhere in the result holds a truthy value or `{}`; no None, "", 0, False or [] survives at any depth |
| `Sanitizer.SanitizeObjectLeavesOnlyEmptiedDicts` | menandmice/client.py:176-184 | the same residue property for the keys of a sanitized dict |
| `Sanitizer.EmptiedDictKept` | menandmice/client.py:176-184 | `{"a": {"b": None}}` becomes `{"a": {}}`, and a second pass gives `{}`, so the sanitizer is not idempotent |
| `Transport.Classify` | menandmice/client.py:187-262 | GET succeeds on 200 (the decoded body) and 204 ("No data to display"); POST only on 201 (the body); PUT only on 204 ("Successfully updated!"); DELETE only on 204 ("Successfully removed!"); every other status gives the shared error mapping |
| `Transport.SharedErrorMapping` | menandmice/client.py:196-204 | outside their accepted statuses all verbs fail identically: with a non-empty error body, an HTTPError whose text is `code + ": " + message`; otherwise the result is left to raise_for_status with the status |
| `Transport.ErrorTextRoundTrip` | menandmice/client.py:199-202 | the raised text `"code: message"` splits back into exactly the server's code and message when the code has no colon |
| `Transport.PostRequest` | menandmice/client.py:207-212 | POST always sends the sanitized payload: a key goes out exactly when its value is truthy, and the payload sent is `SanitizeObject` of the input, so each value carries the properties proved of `SanitizeValue` |
| `Transport.PutRequest` | menandmice/client.py:243-248 | PUT sends the payload verbatim when `sanitize_override` is set; otherwise it sends `SanitizeObject` of the payload, where a key goes out exactly when its value is truthy |
| `Transport.PutSendsPayloadVerbatimIff` | menandmice/client.py:245-246 | PUT sends the caller's payload unchanged if and only if the override is set or the payload holds no falsy value at any depth |
| `Transport.FetchedByStatus` | menandmice/client.py:318-322 | a collection GET gives one entity per element of `result.<key>`, in order, on 200; a shape error on 204 or when the collection is missing; the shared error mapping on any other status |
| `Transport.DecodeEach` | menandmice/client.py:306-308 | the append loop gives one entity per element, in the same order |
| `Transport.FetchCollection` | menandmice/client.py:318-322 | the GET followed by the decode loop yields exactly the `Fetched` outcome characterised by `FetchedByStatus` |
| `ClientApi.DeleteItemRequest` | menandmice/client.py:264-268 | `deleteItem` sends a DELETE with no body to `baseurl + ref + query` |
| `ClientApi.UpdateItemRequest` | menandmice/client.py:270-281 | PUT to `baseurl + ref`; `properties` is wrapped into a one-element list when it is not a list; after sanitizing, `deleteUnspecified` is sent (as true) exactly when it is true, `ref`, `objType` and `saveComment` exactly when non-empty, and `properties` unless it was `[]` |
| `ClientApi.GetItemAccess` | menandmice/client.py:283-289 | `getItemAccess` sends a GET with no body to `baseurl + ref + "/Access" + query`; on 200 the result is the entity built from `result.objectAccess`; a shape error when that is missing or the status is 204; the shared error mapping otherwise |
| `ClientApi.SetItemAccessRequest` | menandmice/client.py:291-300 | PUT to `baseurl + ref + "/Access"` of `{objType, saveComment, identityAccess}`; a single identity is wrapped into a list; keys survive sanitizing exactly when truthy |
| `ClientApi.GetItemHistory` | menandmice/client.py:302-309 | GET `baseurl + ref + "/History" + query`; one Event per element of `result.events`, in order |
| `ClientApi.GetPropertyDefinitions` | menandmice/client.py:311-322 | GET `.../PropertyDefinitions/<name>` when the name is non-empty and `.../PropertyDefinitions` otherwise; one definition per element of `result.propertyDefinitions`, in order |
| `ClientApi.NewCustomPropertyRequest` | menandmice/client.py:324-330 | POST to `baseurl + ref + "/PropertyDefinitions"` of `{saveComment, propertyDefinition}`, each present exactly when truthy |
| `ClientApi.UpdatePropertyDefinitionsRequest` | menandmice/client.py:332-345 | PUT to `.../PropertyDefinitions/<name>`; `updateExisting` is sent (as true) exactly when it is true; the comment and definition are sent exactly when truthy |
| `ClientApi.DeletePropertyDefinitionRequest` | menandmice/client.py:347-354 | `deletePropertyDefinition` sends a DELETE with no body to `.../PropertyDefinitions/<name>`, with the name appended even when empty, followed by `"?" + comment` exactly when the comment is non-empty |
| `ClientApi.ItemAddressing` | menandmice/client.py:264-281 | updating an item addresses `baseurl + ref`; deleting it addresses that URL followed only by the query string |
| `ClientApi.AccessAddressing` | menandmice/client.py:283-300 | setting access rules addresses `baseurl + ref + "/Access"`; reading them addresses that URL followed only by the query string |
| `ClientApi.PropertyDefinitionAddressing` | menandmice/client.py:311-354 | a named definition is read, updated and deleted without a comment at one URL; a non-empty comment is appended after a bare "?"; new definitions are posted where the unnamed listing is read |
| `ClientApi.EmptyNameAddressing` | menandmice/client.py:332-354 | with an empty name, update and delete target `.../PropertyDefinitions/`, which is not the listing URL |
| `ClientApi.PropertyDefinitionsUrlInjective` | menandmice/client.py:313-317 | distinct property names give distinct definition URLs under one reference |
| `LegacyClient.BuildAccessEntries` | menandmice/menandmice.py:53-61 | a falsy input gives no entries; otherwise the call succeeds exactly when every value unpacked with `**` is a dict (a list's elements, or the value itself). It then gives one AccessEntry per list element, in order, or exactly one for a dict; on any other value it fails as the TypeError does |
| `LegacyClient.SetItemAccessRequest` | menandmice/menandmice.py:290-301 | an IdentityAccess instance gives exactly the client.py request for its JSON dict, so the dict is sent as a one-element list, sanitized, beside the caller's `objType` and `saveComment`; a plain argument gives the same request as client.py |
| `LegacyClient.NewCustomPropertyRequest` | menandmice/menandmice.py:331-339 | a PropertyDefinition instance gives exactly the client.py request for its JSON dict (the sanitizing POST, with the caller's `saveComment`); a plain argument gives the same request as client.py |
| `LegacyClient.UpdatePropertyDefinitionsRequest` | menandmice/menandmice.py:341-356 | a PropertyDefinition instance gives exactly the client.py request for its JSON dict (the sanitizing PUT to `.../PropertyDefinitions/<name>`, with the caller's `updateExisting` and `saveComment`); a plain argument gives the same request as client.py |
| `UserServices.DescriptorsDistinct` | menandmice/users.py:57-63 | Groups, Roles and Users bind ("Groups", group, "groups"), ("Roles", role, "roles") and ("Users", user, "users"), each to its own class; the three differ in URL base and in both keys (Roles at users.py:145-151, Users at users.py:189-195) |
| `UserServices.FetchAllShape` | menandmice/users.py:73-76 | the create-then-fetch loop succeeds exactly when every reference's get returns something; the result then has one object per reference, in order, each the first one its get returned; otherwise it fails with the failure of the first reference that did not |
| `UserServices.Add` | menandmice/users.py:65-76 | `add` POSTs the sanitized `{saveComment, <entityKey>: input}` to `baseurl + url_base`, issues the gets for the returned references in order, and returns the `FetchAllShape` outcome. On success it has fetched every reference; on a failure after the POST it has fetched a prefix in which every get but the last succeeded and the last one failed |
| `UserServices.LookupsMatchServices` | menandmice/users.py:78-87 | for each of the six relational lookups, the sub-resource read is named after the URL base of the service of the class it yields, and the collection key decoded is that service's collection key |
| `UserServices.GetRelated` | menandmice/users.py:78-87 | the owner is resolved before any request, and an unresolvable owner sends nothing; otherwise the lookup GETs `baseurl + ref + segment + query`, which depends only on the resolved ref. It returns one object per element of the yielded service's collection, in order, each built by the constructor of the class the lookup yields |
| `UserServices.DeleteLinkRequest` | menandmice/users.py:89-97 | both arguments are resolved first; DELETE `baseurl + ref1 + "/" + ref2`, with the saveComment query appended only when the comment is non-empty (also `delete_group_user`, `delete_user_role`) |
| `UserServices.AddLinkRequest` | menandmice/users.py:99-109 | both arguments are resolved first; PUT `{saveComment}` verbatim to `baseurl + ref1 + "/" + ref2`, so the key is sent even when the comment is empty (also `add_group_user`, `add_user_role`) |
| `UserServices.LinkAddressing` | menandmice/users.py:89-109 | linking and unlinking address the same URL; an empty comment survives the link only because the sanitizer is skipped, and a sanitizing PUT would drop it |

## Left out

- HTTP I/O is not modelled: the session, basic authentication, the actual network calls and `response.json()` decoding. A response is an abstract status, decoded body and optional error pair.
- `raise_for_status` belongs to the HTTP library and is an opaque outcome, `StatusCheck(status)`. For a status below 400 with an empty error body it does not raise. `get`, `put` and `delete` then return their initial `""`, and `post` returns the falsy decoded error body. The model does not distinguish that case.
- The error envelope is either a (code, message) pair or absent. A non-empty error body without `error.code`/`error.message` (a KeyError) is not modelled, and an integer code is taken as its decimal text.
- JSON floating-point numbers are not modelled.
- The runtime modelled is Python 2, and two effects of that choice are not captured.
  - Under Python 3, deleting a key inside `for k, v in json_obj.items()` (menandmice/client.py:175-179) raises RuntimeError whenever a payload holds a falsy key. Under Python 2, `items()` is a snapshot list, and that snapshot is what `Sanitizer.SanitizeJson` models.
  - Under Python 2, `"{0}: {1}".format(code, message)` (menandmice/client.py:201-202) raises UnicodeEncodeError for a non-ASCII unicode code or message, where the model gives `HttpError`. The URL `format` calls do the same for a non-ASCII ref or name, where the model gives a request. Strings are modelled as sequences of characters, with no encoding.
- `Sanitizer.SanitizeJson`: a list element that is not a dict makes the source raise AttributeError. The model excludes that by the precondition `Shaped` instead of modelling the crash.
- `Sanitizer.SanitizeJson`: the dict is updated in place in the source. The model returns the new dict, so aliasing is not captured: the caller's reference to the same dict, and a dict that occurs twice in one payload, are not modelled.
- String arguments that are None in Python are not modelled. For example, `save_comment=None` would put the text "None" into a URL.
- A response collection that is present but is not a list counts as a shape error. Python would iterate a dict's keys or a string's characters.
- `LegacyClient.SetItemAccessRequest`: only a single IdentityAccess instance is converted (menandmice/menandmice.py:291-292). A list of IdentityAccess instances reaches `sanitize_json` unconverted, and there the `.items()` call on each element raises AttributeError (menandmice/menandmice.py:185-187). The `Arg` type cannot express a list of instances, so this input is not modelled.
- The helpers of `menandmice/base.py` are parameters, not definitions. These are `add_key`, `get_value`, `make_query_str`, `ref_or_raise`, `json_to_class`, `build_obj_list`, `to_json` and the entity constructors. The services' own `list`/`get`/`update`/`delete` in `BaseService` are not part of this model either, because base.py is not part of it.
- `Client.__init__` and the `new*` factory methods are not modelled. They only construct objects from the dns and ipam modules, which are not part of this model.
- The per-resource field lists of `AccessEntry`, `IdentityAccess`, `ObjectAccess`, `Event`, `PropertyDefinition`, `Group`, `Role` and `User` are not modelled. They are configuration data handled by base.py.
- `print` and `pprint` are not modelled.
