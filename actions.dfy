/** The action dispatcher of the "api" service: each route's action checks
    the request, then either answers itself, refuses with an `{error: ...}`
    object, or forwards an action request to the storage component. The
    component is a parameter: it is not part of this model. */
module Actions {
  import opened JsValues
  import opened Schema

  /** The collection every action works on. */
  const Collection: string := "api"

  /** The parts of an Express request the actions read. `accept` is the
      Accept header ("" when absent), `body` the parsed body, `query` the
      parsed query string, `id` the `:id` route parameter ("" when absent). */
  datatype Request = Request(accept: string, body: Option<Record>, query: Option<Query>, id: string)

  /** The object handed to the component; `None` is an absent property. */
  datatype ActionRequest = ActionRequest(
    name: string, action: string, id: Option<string>, item: Option<Record>, filter: Option<Query>,
    props: Option<seq<string>>, reqd: Option<seq<string>>,
    enums: Option<seq<Enumeration>>, defs: Option<seq<Default>>)

  /** How an action's promise is settled: with its own answer, by rejecting
      with `{error}`, or by resolving with what the component gives back. */
  datatype Outcome = Answer(payload: Payload) | Refuse(error: string) | Forward(request: ActionRequest)

  /** The promise an outcome makes, given the component's behaviour; a component
      that throws or rejects is a `Rejected` settlement of its own. */
  function Settle(o: Outcome, component: ActionRequest -> Settlement): (s: Settlement)
    ensures o.Answer? ==> s == Fulfilled(o.payload)
    ensures o.Refuse? ==> s == Rejected(Invalid(o.error))
    ensures o.Forward? ==> s == component(o.request)
  {
    match o
    case Answer(p) => Fulfilled(p)
    case Refuse(e) => Rejected(Invalid(e))
    case Forward(r) => component(r)
  }

  /** A request naming the collection and an action, and nothing else. */
  function Plain(action: string): ActionRequest
  {
    ActionRequest(Collection, action, None, None, None, None, None, None, None)
  }

  // ---------------------------------------------------------------------------
  // home

  /** The media types the root resource answers with its bootstrap link. */
  const LinkTypes: string := "application/json text/csv */*"

  const Bootstrap: Record :=
    map["id" := Str("list"), "name" := Str("api-starter"), "rel" := Str("collection api"),
        "href" := Str("{fullhost}/list/")]

  /** `home`: the bootstrap record when the Accept header occurs in the list of
      link types (an absent header always does), otherwise an empty list.
      It never refuses and never reaches the component. */
  function Home(req: Request): (o: Outcome)
    ensures o.Answer?
    ensures Contains(LinkTypes, req.accept) ==> o.payload == One(Bootstrap)
    ensures !Contains(LinkTypes, req.accept) ==> o.payload == Many([])
  {
    if Contains(LinkTypes, req.accept) then Answer(One(Bootstrap)) else Answer(Many([]))
  }

  /** The test is substring containment of the header in the literal: no header
      and "application/json" get the bootstrap record, "text/html" does not. */
  lemma HomeByAccept()
    ensures Home(Request("", None, None, "")).payload == One(Bootstrap)
    ensures Home(Request("application/json", None, None, "")).payload == One(Bootstrap)
    ensures Home(Request("text/html", None, None, "")).payload == Many([])
  {
    EmptyOccursEverywhere(LinkTypes);
    assert OccursAt(LinkTypes, "application/json", 0);
    forall i | 0 <= i <= |LinkTypes| - |"text/html"| ensures !OccursAt(LinkTypes, "text/html", i) {
      assert LinkTypes[i..i + 9][5] == LinkTypes[i + 5];
      assert LinkTypes[i + 5] != 'h';
    }
  }

  // ---------------------------------------------------------------------------
  // create, list, filter, read

  /** `create`: forwards an "add" of the body with the full schema; refuses a missing body. */
  function Create(req: Request): (o: Outcome)
    ensures o.Refuse? <==> req.body.None?
    ensures o.Refuse? ==> o.error == "invalid body"
    ensures !o.Refuse? ==> o == Forward(ActionRequest(Collection, "add", None, req.body, None,
                                                      Some(Props), Some(Reqd), Some(Enums), Some(Defs)))
  {
    if req.body.Some? then
      Forward(ActionRequest(Collection, "add", None, req.body, None, Some(Props), Some(Reqd), Some(Enums), Some(Defs)))
    else Refuse("invalid body")
  }

  /** `list`: always forwards a plain "list". */
  function List(): (o: Outcome)
    ensures o.Forward? && o.request.action == "list" && o.request.name == Collection
    ensures o.request.filter.None? && o.request.id.None? && o.request.item.None?
  {
    Forward(Plain("list"))
  }

  /** `filter`: forwards the parsed query as the filter; refuses only when
      there is no query object (a parsed query object has no `length`, so
      the length test never refuses one, even an empty one). */
  function Filter(req: Request): (o: Outcome)
    ensures o.Refuse? <==> req.query.None?
    ensures o.Refuse? ==> o.error == "invalid query string"
    ensures !o.Refuse? ==> o.Forward? && o.request.action == "filter" && o.request.filter == req.query
    ensures !o.Refuse? ==> o.request == Plain("filter").(filter := req.query)
  {
    if req.query.Some? then Forward(Plain("filter").(filter := req.query))
    else Refuse("invalid query string")
  }

  /** `read`: forwards an "item" lookup of the id; refuses a missing id. */
  function Read(req: Request): (o: Outcome)
    ensures o.Refuse? <==> req.id == ""
    ensures o.Refuse? ==> o.error == "missing id"
    ensures !o.Refuse? ==> o == Forward(Plain("item").(id := Some(req.id)))
  {
    if req.id != "" then Forward(Plain("item").(id := Some(req.id))) else Refuse("missing id")
  }

  // ---------------------------------------------------------------------------
  // update, status, remove

  /** `update`: forwards an "update" of the id with the body, the properties,
      the required fields and the enumerations (no defaults); refuses when
      either the id or the body is missing. */
  function Update(req: Request): (o: Outcome)
    ensures o.Refuse? <==> req.id == "" || req.body.None?
    ensures o.Refuse? ==> o.error == "missing id and/or body"
    ensures !o.Refuse? ==> o == Forward(ActionRequest(Collection, "update", Some(req.id), req.body, None,
                                                      Some(Props), Some(Reqd), Some(Enums), None))
  {
    if req.id != "" && req.body.Some? then
      Forward(ActionRequest(Collection, "update", Some(req.id), req.body, None, Some(Props), Some(Reqd), Some(Enums), None))
    else Refuse("missing id and/or body")
  }

  /** `status`: as `update`, except that its required list is read from a
      data export that does not exist, so no required fields are sent. */
  function Status(req: Request): (o: Outcome)
    ensures o.Refuse? <==> req.id == "" || req.body.None?
    ensures o.Refuse? ==> o.error == "missing id and/or body"
    ensures !o.Refuse? ==> o.Forward? && o.request.action == "update" && o.request.reqd.None?
  {
    if req.id != "" && req.body.Some? then
      Forward(ActionRequest(Collection, "update", Some(req.id), req.body, None, Some(Props), None, Some(Enums), None))
    else Refuse("missing id and/or body")
  }

  /** `remove`: forwards a "delete" of the id; refuses a missing id. */
  function Remove(req: Request): (o: Outcome)
    ensures o.Refuse? <==> req.id == ""
    ensures o.Refuse? ==> o.error == "invalid id"
    ensures !o.Refuse? ==> o == Forward(Plain("delete").(id := Some(req.id)))
  {
    if req.id != "" then Forward(Plain("delete").(id := Some(req.id))) else Refuse("invalid id")
  }

  // ---------------------------------------------------------------------------
  // properties across the actions

  /** `status` refuses exactly when `update` does, and otherwise sends the same
      request with the required-field list dropped. */
  lemma StatusIsUpdateWithoutRequired(req: Request)
    ensures Status(req).Refuse? <==> Update(req).Refuse?
    ensures Status(req).Refuse? ==> Status(req) == Update(req)
    ensures !Status(req).Refuse? ==> Status(req).request == Update(req).request.(reqd := None)
  {
  }

  /** The writes that carry a schema carry the service's declared properties;
      only `create` sends the defaults. */
  lemma WritesCarrySchema(req: Request)
    ensures Create(req).Forward? ==> Create(req).request.props == Some(Props) && Create(req).request.defs == Some(Defs)
    ensures Update(req).Forward? ==> Update(req).request.props == Some(Props) && Update(req).request.defs.None?
    ensures Status(req).Forward? ==> Status(req).request.props == Some(Props) && Status(req).request.defs.None?
  {
  }

  /** A refused request settles the same way whatever the component does: the
      component is never consulted. */
  lemma RefusalIgnoresComponent(req: Request, c1: ActionRequest -> Settlement, c2: ActionRequest -> Settlement)
    ensures Read(req).Refuse? ==> Settle(Read(req), c1) == Settle(Read(req), c2) == Rejected(Invalid("missing id"))
    ensures Remove(req).Refuse? ==> Settle(Remove(req), c1) == Settle(Remove(req), c2) == Rejected(Invalid("invalid id"))
    ensures Create(req).Refuse? ==> Settle(Create(req), c1) == Settle(Create(req), c2) == Rejected(Invalid("invalid body"))
    ensures Update(req).Refuse? ==> Settle(Update(req), c1) == Settle(Update(req), c2)
    ensures Filter(req).Refuse? ==> Settle(Filter(req), c1) == Settle(Filter(req), c2)
  {
  }

  /** Every action addresses the "api" collection when it forwards. */
  lemma ForwardsNameTheCollection(req: Request)
    ensures Create(req).Forward? ==> Create(req).request.name == Collection
    ensures Filter(req).Forward? ==> Filter(req).request.name == Collection
    ensures Read(req).Forward? ==> Read(req).request.name == Collection
    ensures Update(req).Forward? ==> Update(req).request.name == Collection
    ensures Status(req).Forward? ==> Status(req).request.name == Collection
    ensures Remove(req).Forward? ==> Remove(req).request.name == Collection
  {
  }
}
