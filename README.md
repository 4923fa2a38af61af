# darrt core, modelled in Dafny

darrt is a small hypermedia API engine. A route's action checks the incoming
request and builds a generic *action request*. A pluggable record store carries
that request out over named collections of flat JSON records. A response
handler then negotiates a representation template from the Accept header and
filters the page forms, item forms and metadata by the route's tag. Finally it
either renders the records or turns an error into RFC 7807-style problem
documents.

This project models that core:

- `js_values.dfy` (`JsValues`): the JSON values the pieces exchange. It also holds the
  few JavaScript semantics they rely on: truthiness, `String(x)`,
  `toLowerCase`, `indexOf`, and how an action's promise settles.
- `schema.dfy` (`Schema`): the service's property list, required fields,
  enumerations and defaults.
- `storage.dfy` (`Storage`): the file-backed record store. It is a class `Store`
  whose state is a map from collection name to a map from id to record. Its
  methods follow the store's operations and are proved against specification
  functions (`ListReply`, `ItemReply`, `Added`, `Updated`, `Removed`,
  `Created`). The lemmas state what those functions promise.
- `utils.dfy` (`Utils`): tag filtering, template resolution, the problem-document
  builder, the handler's classification of a settled action, and the small
  helpers (`setProps`, `cleanList`, `cjBody`, `getQArgs`, `actionMethod`,
  `errorResponse`).
- `actions.dfy` (`Actions`): the eight route actions. Each either answers
  itself, refuses with `{error}`, or forwards an action request to the
  storage component. The component is a function parameter.
- `representation.dfy` (`Representation`): the template registry and the list
  of supported media types.
- `pipeline.dfy` (`Pipeline`): what a store error record and a refused request
  become once the handler has classified them.

A few behaviours are modelled as the code has them, where a reader might
expect otherwise:

- **Filter.** A filter keeps a record according to the *last* query key that
  has a non-empty value. It is not an AND of all the keys: each key overwrites
  the verdict of the keys before it. See `Storage.VerdictIsLastActive` and
  `Storage.FilterIsNotConjunction`.
- **Not found.** A read of an absent record gives an error record with status
  400, not 404.
- **Update.** `updateItem` guards against a falsy read of the current record.
  That read always yields a record, so the guard is dead. An update of an
  absent id therefore writes a new record.
- **Refusals become 500.** A request an action refuses reaches the client as
  a 500 "Server error" whose detail is "Internal error". The refusal reason is
  not sent.

## Model

| member | source | states |
|---|---|---|
| Schema.SystemFieldsDeclared | darrt/data.js:18-27 | the declared properties include the store-managed `id`, `dateCreated` and `dateUpdated` |
| Schema.RequiredAreDeclared | darrt/data.js:35 | every required field (`id`, `email`, `status`) is a declared property |
| Schema.StatusEnumeration | darrt/data.js:44-46 | `status` is the only enumerated field, with exactly pending, active, suspended, closed |
| Schema.DefaultsAreLegal | darrt/data.js:54-56 | every default names a declared property, and the default "pending" is one of the enumerated status values |
| Storage.Exception | darrt/lib/storage.js:333-344 | the error record's keys are at most type/title/detail/status/instance/debug. `type` defaults to "error" and `title` to "Error". `detail` is the detail, else the title. `status` is the numeric code when one is given, else the string "400". `instance` and `debug` are present iff given |
| Storage.ApplyFields | darrt/lib/storage.js:157-171 | with no fields the item is unchanged. Otherwise the keys are exactly the item's keys that are listed, with values unchanged |
| Storage.Project | darrt/lib/storage.js:113-116 | each record of the list is projected; length and order are kept |
| Storage.LastActiveUnique | darrt/lib/storage.js:87-101 | at most one filter entry is the last one with a non-empty value |
| Storage.VerdictIsLastActive | darrt/lib/storage.js:87-104 | a record is kept iff the last non-empty filter entry matches: the field is present and not null, and its lower-cased text contains the lower-cased value |
| Storage.AllBlankKeepsNothing | darrt/lib/storage.js:87-104 | a filter whose values are all empty keeps no record |
| Storage.MissingFieldDrops | darrt/lib/storage.js:91-99 | when the deciding field is missing or null in the record, the record is dropped |
| Storage.FilterIsNotConjunction | darrt/lib/storage.js:88-101 | a record that fails an earlier key but matches the last one is kept |
| Storage.SelectedMembers | darrt/lib/storage.js:85-108 | a record is selected iff some listed name holds it and the filter keeps it |
| Storage.UnfilteredSelected | darrt/lib/storage.js:105-107 | without a filter, every listed record is selected, in listing order |
| Storage.ListingSize | darrt/lib/storage.js:84 | a directory listing has exactly one name per record |
| Storage.ListIsEverything | darrt/lib/storage.js:82-111 | an unfiltered list has one entry per listed id: its i-th entry is the record stored under the i-th id of the listing, so every record appears and the list is as long as the collection. A missing collection gives `[]` |
| Storage.ListReplySize | darrt/lib/storage.js:82-116 | a list never holds more records than the collection, and holds as many without a filter. A missing collection gives `[]` |
| Storage.FilteredListExactly | darrt/lib/storage.js:79-119 | a filtered list holds exactly the collection's records that the filter keeps |
| Storage.ReadDir | darrt/lib/storage.js:84 | the directory listing names each record of the collection exactly once, in an arbitrary order |
| Storage.MissingItemIsError | darrt/lib/storage.js:133-142 | reading an absent record gives type "error", title "SimpleStorage: [c]", detail "Not Found [id]", status 400, and no instance |
| Storage.MissingItemProjected | darrt/lib/storage.js:144 | the projection also applies to the not-found record. With fields that omit `type`, the failure is no longer recognisable as an error |
| Storage.AddStoresStampedRecord | darrt/lib/storage.js:221-237 | on a fresh id the collection gains exactly the stamped record. Its id is the supplied or generated one, `dateUpdated` equals `dateCreated`. Its keys are exactly the item's keys plus `id`, `dateCreated` and `dateUpdated`, the item's other fields are kept, and the stored record is returned |
| Storage.AddConflictChangesNothing | darrt/lib/storage.js:229-233 | an existing id gives "Record already exists" with the default status "400", and the store is unchanged |
| Storage.UpdateReplacesWholesale | darrt/lib/storage.js:262-277 | the record at id becomes the item plus a fresh `dateUpdated`, with no field merge. It is written even when the id was absent. Every other record and collection is unchanged |
| Storage.RemoveListsTheRest | darrt/lib/storage.js:301-307 | after a remove, the returned list holds exactly the records under the collection's other ids |
| Storage.Nullable | darrt/lib/storage.js:33-35 | an empty argument is `null`, any other is kept |
| Storage.Store.GetList | darrt/lib/storage.js:79-119 | the returned list is the filtered, projected listing of the collection, or `[]` when the collection is missing |
| Storage.Store.GetItem | darrt/lib/storage.js:130-147 | the projected record at id, or the projected not-found error record |
| Storage.Store.CreateObject | darrt/lib/storage.js:180-207 | a missing name gives "unable to create object". An existing collection gives "error creating folder/object". Otherwise an empty collection is added and nothing is returned |
| Storage.Store.AddItem | darrt/lib/storage.js:218-248 | the new state and reply are those of `Added`: conflict, missing collection ("Unable to add item", 400), or the stored stamped record |
| Storage.Store.UpdateItem | darrt/lib/storage.js:259-288 | the new state and reply are those of `Updated`: overwrite with a fresh `dateUpdated`, or "Unable to update item" for a missing collection |
| Storage.Store.RemoveItem | darrt/lib/storage.js:298-308 | the record is removed if present, and the reply is the list of the collection afterwards |
| Storage.Store.Dispatch | darrt/lib/storage.js:28-68 | each of the seven action names runs its operation with `null` for empty arguments. Any other action changes nothing and returns `null` |
| Utils.ActionMethod | darrt/lib/utils.js:53-65 | under "http" or no protocol, the table's method, or undefined for an unknown action. Any other protocol gives "GET" |
| Utils.ActionMethodTable | darrt/lib/utils.js:25-32 | append→POST, partial→PATCH, read→GET, remove→DELETE, replace→PUT, options→OPTIONS, trace→TRACE, under both "http" and no protocol |
| Utils.SetProps | darrt/lib/utils.js:74-83 | the keys are exactly the listed properties. Each value is the item's when that value is present and truthy, else "" |
| Utils.CleanList | darrt/lib/utils.js:91-104 | an array is unchanged, `null` gives `[]`, and any other value gives a one-element list |
| Utils.ErrorResponse | darrt/lib/utils.js:130-146 | code in both places. The message is `msg`, else the description. The url is rebuilt from host and path. `description` is present iff it is non-empty |
| Utils.CjData | darrt/lib/utils.js:238-245 | `template.data` is preferred to `data`; the list is empty when neither is present |
| Utils.CjMapKeys | darrt/lib/utils.js:248-252 | the map's keys are exactly the names in the data list |
| Utils.CjMapLastWins | darrt/lib/utils.js:248-252 | each name maps to the value of its last entry, so later duplicates overwrite earlier ones |
| Utils.CjBody | darrt/lib/utils.js:230-255 | the result is the name/value map of the preferred data list, and the empty map when there is none |
| Utils.SplitJoin | darrt/lib/utils.js:267 | splitting the url on '?' loses nothing: joining the pieces gives it back |
| Utils.SplitPieces | darrt/lib/utils.js:267-268 | no piece contains '?', and there is a second piece iff the url contains '?' |
| Utils.GetQArgs | darrt/lib/utils.js:263-272 | `null` iff the url has no '?'. Otherwise the parse of the second piece |
| Utils.QueryText | darrt/lib/utils.js:263-272 | the parsed text is the '?'-free run right after the url's first '?' |
| Utils.Exception | darrt/lib/utils.js:286-296 | type defaults to "error" and title to "Error". detail is `message \|\| name`. status is the string form of the code, or "400". instance is present iff a url is given |
| Utils.ResolvedIsUnique | darrt/lib/utils.js:407-423 | resolution is deterministic: only one template is the first accepted one |
| Utils.ResolveAccepts | darrt/lib/utils.js:407-423 | the result is the first template, in list order, whose format is accepted, or `{application/json, ""}` when none is |
| Utils.TaggedMembers | darrt/lib/utils.js:441-451 | an entry is kept iff it is in the list and its tags are empty, absent, or contain the tag |
| Utils.EmptyTagKeepsAll | darrt/lib/utils.js:439-440 | the empty tag keeps the whole list unchanged |
| Utils.ItemTagNotInList | darrt/lib/utils.js:443-449 | an entry tagged "item" is excluded when the tag is "list" |
| Utils.TagFilter | darrt/lib/utils.js:433-454 | the empty tag gives the list unchanged, whatever the entries' tags. Otherwise the admitted entries, in order |
| Utils.Handler | darrt/lib/utils.js:309-397 | a rejection, or a null or undefined result, gives one "Server error" problem with HTTP 500. An array headed by an error record, or an error record alone, gives one problem and HTTP 400 whatever that problem's status. Any other array passes through as a collection and any other record is wrapped in a list as an item. A rendered reply uses the negotiated template and the tag-filtered forms and metadata |
| Utils.RejectionIsServerError | darrt/lib/utils.js:386-395 | the catch path's problem has title "Server error", status "500", type "error" and the request's url as instance |
| Actions.Settle | darrt/actions.js:70-73 | an answer fulfils, a refusal rejects with `{error}`, and a forward settles as the component does |
| Actions.Home | darrt/actions.js:29-50 | the bootstrap record iff the Accept value occurs in "application/json text/csv */*". Otherwise an empty list. It never refuses |
| Actions.HomeByAccept | darrt/actions.js:34-42 | no Accept header and "application/json" get the bootstrap record, while "text/html" gets an empty list |
| Actions.Create | darrt/actions.js:57-75 | refuses "invalid body" iff the body is absent. Otherwise an "add" of the body with props, reqd, enums and defs |
| Actions.List | darrt/actions.js:81-89 | always forwards a plain "list" of the collection |
| Actions.Filter | darrt/actions.js:96-109 | refuses "invalid query string" iff there is no query object. Otherwise forwards the query as the filter |
| Actions.Read | darrt/actions.js:116-130 | refuses "missing id" iff the id is missing. Otherwise an "item" lookup of the id |
| Actions.Update | darrt/actions.js:137-157 | refuses "missing id and/or body" unless both are present. Otherwise an "update" with props, reqd and enums |
| Actions.Status | darrt/actions.js:164-184 | refuses exactly as update does. Otherwise an "update" with no required-field list |
| Actions.Remove | darrt/actions.js:191-205 | refuses "invalid id" iff the id is missing. Otherwise a "delete" (not "remove") of the id |
| Actions.StatusIsUpdateWithoutRequired | darrt/actions.js:164-184 | status refuses iff update does, and otherwise forwards update's request with `reqd` undefined |
| Actions.WritesCarrySchema | darrt/actions.js:61-177 | create, update and status send the declared properties, and only create sends the defaults |
| Actions.RefusalIgnoresComponent | darrt/actions.js:71-73 | a refused request settles the same way whatever the component does |
| Actions.ForwardsNameTheCollection | darrt/actions.js:13 | every forwarded request names the collection "api" |
| Representation.GetTemplates | darrt/representation.js:35-45 | exactly five templates: plain JSON, then forms, CSV, links and pragmatic JSON |
| Representation.GetResponseTypes | darrt/representation.js:54-63 | as many formats as templates; the i-th is the i-th template's format, the first is "application/json" |
| Representation.PrefersPlainJson | darrt/representors/app-json.js:10 | a client that accepts JSON always gets the plain JSON template |
| Representation.FallbackForUnknownTypes | darrt/lib/utils.js:419-421 | a client that accepts no registered format gets the JSON fallback with no view |
| Pipeline.NotFoundIsClientError | darrt/lib/utils.js:329-363 | a not-found record, alone or heading a list, becomes one problem with the store's title and detail and status "400" |
| Pipeline.RefusalIsInternalError | darrt/lib/utils.js:386-395 | a refused request becomes a rejection whose problem says "Internal error" with status "500", so the refusal reason is lost |

## Left out

- File-system I/O: folders and files become the store's map. A directory
  listing is an arbitrary order of the collection's ids. I/O failures other
  than a missing folder, file or collection are not modelled.
- Storage.Exception: the `debug` text of the I/O error that the store's catch
  blocks attach is not modelled. This covers the not-found, add and update
  failures, and the "error creating folder/object" failure of `createObject`.
  Those records carry no `debug` key.
- Record ids come from a random generator and timestamps from the clock. Both
  are parameters (`generated`, `now`). A stored timestamp reads back unchanged;
  the ISO text form of a date after its JSON round trip is not modelled. The
  clock's monotonicity is the caller's.
- `toLowerCase` is modelled on ASCII letters only.
- Storage.Store.GetList: `fields` is modelled as a list. A string `fields`
  would be matched by substring.
- Query-string values are plain strings. Array values are not modelled.
- Storage.Verdict: a filter is the sequence of entries in the order the
  store's `for...in` loop visits the query object's keys. In JavaScript that
  order puts integer-like keys first, in ascending order, then the other keys
  in insertion order. The model takes the visiting order as given and does
  not derive it from the query text.
- JavaScript numbers are doubles, but the model's `Num` holds integers and
  prints them in plain decimal. Fractional values such as `1.5` and the
  exponent form of large numbers such as `1e21` ("1e+21") are not modelled.
  This matters where the filter matches against a field's text form.
- Storage.Store.AddItem: it does not model that the source also writes `id`
  and the dates into the caller's own `item` object.
- Storage.Store.UpdateItem: it does not model the source's write into the
  caller's `item`. The dead guard is not modelled as a branch.
- Template rendering, the blank-line clean-up and the Express response calls
  are not modelled. A rendered reply is the render context. An exception
  thrown while rendering is not modelled.
- `req.accepts` is a predicate parameter. The other representors' templates
  (forms, CSV, links, pragmatic JSON) are parameters. The plain JSON
  template's markup is represented only by a view name.
- `JSON.parse` and `qs.parse` are foreign: `cjBody` takes the parsed document,
  and `getQArgs` takes the parser as a parameter.
- `utils.file`, `parseBody`, `makeId`, the Express routing file, the React
  forms representor and the component that connects actions to the store are
  not part of this model.
- Utils.ActionMethod: keys inherited from the object prototype (such as
  "constructor") are treated as unknown actions.
- Utils.TagFilter: under a non-empty tag it requires each entry's `tags` to
  be a string when present and truthy. A number or boolean there makes the
  source throw. An array would be searched element by element; arrays are
  not modelled. Under the empty tag no entry's `tags` is read, so there is
  no requirement.
- Utils.Handler: payloads other than records, arrays of records, `null` and
  `undefined` (such as a bare string) are not modelled.
- Concurrency and promise scheduling: every call is modelled as sequential.
