/** The response-shaping utilities: template negotiation, tag filtering of
    forms and metadata, problem documents, the handler's classification of an
    action's result, and the small request/response helpers. Express calls,
    template rendering and JSON/query-string parsing stay outside the model. */
module Utils {
  import opened JsValues

  // ---------------------------------------------------------------------------
  // Siren action names to HTTP methods

  const HttpActions: map<string, string> := map[
    "append" := "POST", "partial" := "PATCH", "read" := "GET", "remove" := "DELETE",
    "replace" := "PUT", "options" := "OPTIONS", "trace" := "TRACE"]

  /** The HTTP method for an action; `None` is the `undefined` an unknown
      action name gives under the "http" protocol (the default). */
  function ActionMethod(action: string, protocol: string): (r: Option<string>)
    ensures protocol in {"", "http"} ==> (r.Some? <==> action in HttpActions)
    ensures protocol in {"", "http"} && r.Some? ==> r.value == HttpActions[action]
    ensures protocol !in {"", "http"} ==> r == Some("GET")
  {
    var p := if protocol != "" then protocol else "http";
    if p == "http" then (if action in HttpActions then Some(HttpActions[action]) else None)
    else Some("GET")
  }

  /** Under "http" or no protocol, the seven actions map to these methods. */
  lemma ActionMethodTable()
    ensures ActionMethod("append", "") == Some("POST")
    ensures ActionMethod("partial", "http") == Some("PATCH")
    ensures ActionMethod("read", "") == Some("GET")
    ensures ActionMethod("remove", "") == Some("DELETE")
    ensures ActionMethod("replace", "") == Some("PUT")
    ensures ActionMethod("options", "") == Some("OPTIONS")
    ensures ActionMethod("trace", "") == Some("TRACE")
  {
  }

  // ---------------------------------------------------------------------------
  // setProps, cleanList

  /** `setProps`: a record with exactly the listed properties, each the item's
      value or "" when that value is missing or falsy. */
  method SetProps(item: Record, props: seq<string>) returns (rtn: Record)
    ensures forall p :: p in rtn <==> p in props
    ensures forall p :: p in rtn && p in item && Truthy(item[p]) ==> rtn[p] == item[p]
    ensures forall p :: p in rtn && !(p in item && Truthy(item[p])) ==> rtn[p] == Str("")
  {
    rtn := map[];
    for i := 0 to |props|
      invariant forall p :: p in rtn <==> p in props[..i]
      invariant forall p :: p in rtn ==> rtn[p] == (if p in item && Truthy(item[p]) then item[p] else Str(""))
    {
      var p := props[i];
      rtn := rtn[p := if p in item && Truthy(item[p]) then item[p] else Str("")];
      assert props[..i + 1] == props[..i] + [p];
    }
    assert props[..|props|] == props;
  }

  /** The argument of `cleanList`: an array, `null`, or any other value. */
  datatype Elem<T> = ArrayOf(items: seq<T>) | NullElem | Other(value: T)

  /** `cleanList`: an array unchanged, `null` as the empty list, anything else as a one-element list. */
  function CleanList<T>(elm: Elem<T>): (coll: seq<T>)
    ensures elm.ArrayOf? ==> coll == elm.items
    ensures elm.NullElem? ==> coll == []
    ensures elm.Other? ==> coll == [elm.value]
  {
    match elm
    case ArrayOf(items) => items
    case NullElem => []
    case Other(v) => [v]
  }

  // ---------------------------------------------------------------------------
  // errorResponse

  datatype ErrorBody = ErrorBody(code: int, message: Option<string>, url: string, description: Option<string>)

  /** `{code, doc: {error: ...}}` */
  datatype ErrorReply = ErrorReply(code: int, error: ErrorBody)

  /** `errorResponse`: the message is `msg || description`; `description` is
      kept only when truthy; the url is rebuilt from the request's host and path. */
  function ErrorResponse(host: string, path: string, msg: string, code: int, description: Option<string>): (r: ErrorReply)
    ensures r.code == code && r.error.code == code
    ensures msg != "" ==> r.error.message == Some(msg)
    ensures msg == "" ==> r.error.message == description
    ensures r.error.url == "http://" + host + path
    ensures r.error.description.Some? <==> description.Some? && description.value != ""
    ensures r.error.description.Some? ==> r.error.description == description
  {
    var message := if msg != "" then Some(msg) else description;
    var kept := if description.Some? && description.value != "" then description else None;
    ErrorReply(code, ErrorBody(code, message, "http://" + host + path, kept))
  }

  // ---------------------------------------------------------------------------
  // cjBody

  datatype CjDatum = CjDatum(name: string, value: Value)
  datatype CjTemplate = CjTemplate(data: Option<seq<CjDatum>>)

  /** A parsed collection+json body; `None` is an absent (or null) member. */
  datatype CjDocument = CjDocument(template: Option<CjTemplate>, data: Option<seq<CjDatum>>)

  /** The data list `cjBody` reads: `template.data` in preference to `data`. */
  function CjData(body: CjDocument): (d: seq<CjDatum>)
    ensures body.template.Some? && body.template.value.data.Some? ==> d == body.template.value.data.value
    ensures !(body.template.Some? && body.template.value.data.Some?) && body.data.Some? ==> d == body.data.value
    ensures !(body.template.Some? && body.template.value.data.Some?) && body.data.None? ==> d == []
  {
    if body.template.Some? && body.template.value.data.Some? then body.template.value.data.value
    else if body.data.Some? then body.data.value
    else []
  }

  /** Some entry before position `n` is named `k`. */
  ghost predicate NamedBefore(d: seq<CjDatum>, n: int, k: string)
    requires 0 <= n <= |d|
  {
    exists m :: 0 <= m < n && d[m].name == k
  }

  /** No entry after `m` and before `n` has the same name as entry `m`. */
  predicate LastBefore(d: seq<CjDatum>, n: int, m: int)
    requires 0 <= m < n <= |d|
  {
    forall j :: m < j < n ==> d[j].name != d[m].name
  }

  /** The name/value map of a data list, entries applied in order. */
  function CjMap(d: seq<CjDatum>): (m: Record)
    decreases |d|
  {
    if d == [] then map[] else CjMap(d[..|d| - 1])[d[|d| - 1].name := d[|d| - 1].value]
  }

  /** The map's keys are exactly the names in the list. */
  lemma {:induction false} CjMapKeys(d: seq<CjDatum>, k: string)
    ensures k in CjMap(d) <==> NamedBefore(d, |d|, k)
  {
    if d != [] {
      var n := |d| - 1;
      CjMapKeys(d[..n], k);
      if NamedBefore(d, |d|, k) && k != d[n].name {
        var m :| 0 <= m < |d| && d[m].name == k;
        assert d[..n][m].name == k;
      }
      if NamedBefore(d[..n], n, k) {
        var m :| 0 <= m < n && d[..n][m].name == k;
        assert d[m].name == k;
      }
    }
  }

  /** Each name maps to the value of its last entry: later duplicates win. */
  lemma {:induction false} CjMapLastWins(d: seq<CjDatum>, m: int)
    requires 0 <= m < |d| && LastBefore(d, |d|, m)
    ensures d[m].name in CjMap(d) && CjMap(d)[d[m].name] == d[m].value
  {
    var n := |d| - 1;
    if m < n {
      assert LastBefore(d[..n], n, m);
      CjMapLastWins(d[..n], m);
      assert d[n].name != d[m].name;
    }
  }

  /** `cjBody`: the name/value map of the template data, later duplicates winning. */
  method CjBody(body: CjDocument) returns (rtn: Record)
    ensures rtn == CjMap(CjData(body))
    ensures body.data.None? && (body.template.None? || body.template.value.data.None?) ==> rtn == map[]
  {
    rtn := map[];
    var data: Option<seq<CjDatum>> := None;
    if body.template.Some? && body.template.value.data.Some? {
      data := body.template.value.data;
    }
    if data.None? && body.data.Some? {
      data := body.data;
    }
    if data.Some? {
      var d := data.value;
      for i := 0 to |d|
        invariant rtn == CjMap(d[..i])
      {
        rtn := rtn[d[i].name := d[i].value];
        assert d[..i + 1][..i] == d[..i];
      }
      assert d[..|d|] == d;
    }
  }

  // ---------------------------------------------------------------------------
  // getQArgs

  /** `s.split(sep)` */
  function Split(s: string, sep: char): (parts: seq<string>)
    ensures |parts| >= 1
    decreases |s|
  {
    if s == [] then [""]
    else
      var rest := Split(s[1..], sep);
      if s[0] == sep then [""] + rest else [[s[0]] + rest[0]] + rest[1..]
  }

  /** `parts.join(sep)` */
  function Join(parts: seq<string>, sep: char): string
    decreases |parts|
  {
    if parts == [] then ""
    else if |parts| == 1 then parts[0]
    else parts[0] + [sep] + Join(parts[1..], sep)
  }

  /** Splitting and joining again gives back the string. */
  lemma {:induction false} SplitJoin(s: string, sep: char)
    ensures Join(Split(s, sep), sep) == s
  {
    if s != [] {
      var rest := Split(s[1..], sep);
      SplitJoin(s[1..], sep);
      if s[0] != sep && |rest| > 1 {
        assert Split(s, sep)[1..] == rest[1..];
      }
    }
  }

  /** No piece contains the separator, and there are two pieces or more exactly
      when the separator occurs. */
  lemma {:induction false} SplitPieces(s: string, sep: char)
    ensures forall p :: p in Split(s, sep) ==> sep !in p
    ensures |Split(s, sep)| >= 2 <==> sep in s
  {
    if s != [] {
      SplitPieces(s[1..], sep);
      var rest := Split(s[1..], sep);
      assert s == [s[0]] + s[1..];
      if s[0] != sep {
        forall p | p in Split(s, sep) ensures sep !in p {
          if p != [s[0]] + rest[0] {
            assert p in rest[1..];
          }
        }
      }
    }
  }

  lemma JoinStartsWithFirst(parts: seq<string>, sep: char)
    requires |parts| >= 1
    ensures parts[0] <= Join(parts, sep)
  {
  }

  /** `getQArgs`: `None` (null) when the url has no '?'; otherwise the parse
      of the text after the first '?' (up to any second one). */
  function GetQArgs<Q>(url: string, parse: string -> Q): (r: Option<Q>)
    ensures r.None? <==> '?' !in url
    ensures r.Some? ==> |Split(url, '?')| >= 2 && r.value == parse(Split(url, '?')[1])
  {
    SplitPieces(url, '?');
    var q := Split(url, '?');
    if |q| >= 2 then Some(parse(q[1])) else None
  }

  /** The text handed to the parser is the '?'-free run right after the url's first '?'. */
  lemma QueryText(url: string)
    requires '?' in url
    ensures var q := Split(url, '?');
      |q| >= 2 && '?' !in q[0] && '?' !in q[1] && q[0] + "?" + q[1] <= url
  {
    var q := Split(url, '?');
    SplitPieces(url, '?');
    SplitJoin(url, '?');
    JoinStartsWithFirst(q[1..], '?');
    assert Join(q, '?') == q[0] + "?" + Join(q[1..], '?');
  }

  // ---------------------------------------------------------------------------
  // exception

  /** An argument that is defined and truthy. */
  predicate Present(o: Option<Value>)
  {
    o.Some? && Truthy(o.value)
  }

  /** `exception`: an RFC 7807-style problem record. The status is the text of
      the code (a string, where RFC 7807 section 3.1 has a number). */
  function Exception(name: Option<Value>, message: Option<Value>, code: Option<Value>, kind: Option<Value>, url: string): (rtn: Record)
    ensures rtn.Keys <= {"type", "title", "detail", "status", "instance"}
    ensures "type" in rtn && "title" in rtn && "status" in rtn
    ensures rtn["type"] == (if Present(kind) then kind.value else Str("error"))
    ensures rtn["title"] == (if Present(name) then name.value else Str("Error"))
    ensures "detail" in rtn <==> Present(message) || name.Some?
    ensures Present(message) ==> rtn["detail"] == message.value
    ensures !Present(message) && name.Some? ==> rtn["detail"] == name.value
    ensures rtn["status"] == Str(if Present(code) then ToText(code.value) else "400")
    ensures "instance" in rtn <==> url != ""
    ensures url != "" ==> rtn["instance"] == Str(url)
  {
    var base := map[
      "type" := (if Present(kind) then kind.value else Str("error")),
      "title" := (if Present(name) then name.value else Str("Error")),
      "status" := Str(if Present(code) then ToText(code.value) else "400")];
    var detail := Or(message, name);
    var withDetail := if detail.Some? then base["detail" := detail.value] else base;
    if url != "" then withDetail["instance" := Str(url)] else withDetail
  }

  // ---------------------------------------------------------------------------
  // resolveAccepts

  /** A registered representation: a media type and its view (empty: no markup). */
  datatype Template = Template(format: string, view: string)

  const Fallback: Template := Template("application/json", "")

  /** `r` is the first template whose format the request accepts, or the
      JSON fallback when it accepts none of them. */
  ghost predicate Resolved(accepts: string -> bool, templates: seq<Template>, r: Template)
  {
    if exists i :: 0 <= i < |templates| && accepts(templates[i].format) then
      exists i :: 0 <= i < |templates| && accepts(templates[i].format) && r == templates[i] &&
        forall j :: 0 <= j < i ==> !accepts(templates[j].format)
    else r == Fallback
  }

  /** The first match is unique: resolution is a function of the request and the registry. */
  lemma ResolvedIsUnique(accepts: string -> bool, templates: seq<Template>, r1: Template, r2: Template)
    requires Resolved(accepts, templates, r1) && Resolved(accepts, templates, r2)
    ensures r1 == r2
  {
    if exists i :: 0 <= i < |templates| && accepts(templates[i].format) {
      var i1 :| 0 <= i1 < |templates| && accepts(templates[i1].format) && r1 == templates[i1] &&
        forall j :: 0 <= j < i1 ==> !accepts(templates[j].format);
      var i2 :| 0 <= i2 < |templates| && accepts(templates[i2].format) && r2 == templates[i2] &&
        forall j :: 0 <= j < i2 ==> !accepts(templates[j].format);
      assert !(i1 < i2) && !(i2 < i1);
    }
  }

  /** `resolveAccepts`: first-match template selection with a JSON fallback. */
  method ResolveAccepts(accepts: string -> bool, templates: seq<Template>) returns (r: Template)
    ensures Resolved(accepts, templates, r)
  {
    var rtn: Option<Template> := None;
    for i := 0 to |templates|
      invariant rtn.None? ==> forall j :: 0 <= j < i ==> !accepts(templates[j].format)
      invariant rtn.Some? ==> exists k :: (0 <= k < i && accepts(templates[k].format) && rtn.value == templates[k] &&
        forall j :: 0 <= j < k ==> !accepts(templates[j].format))
    {
      if rtn.None? && accepts(templates[i].format) {
        rtn := Some(templates[i]);
      }
    }
    r := if rtn.None? then Fallback else rtn.value;
  }

  // ---------------------------------------------------------------------------
  // tagFilter

  /** Forms and metadata carry their tags as a string, when they carry any. */
  predicate WellTagged(e: Record)
  {
    "tags" in e && Truthy(e["tags"]) ==> e["tags"].Str?
  }

  /** The entries' tags are read only when the tag is non-empty. */
  predicate Readable(coll: seq<Record>, tag: string)
  {
    tag != "" ==> forall e :: e in coll ==> WellTagged(e)
  }

  /** `item.tags || ""` */
  function TagsOf(e: Record): string
  {
    if "tags" in e && e["tags"].Str? then e["tags"].s else ""
  }

  /** An entry without tags is always included; otherwise its tags must contain the tag. */
  predicate Admits(e: Record, tag: string)
  {
    TagsOf(e) == "" || Contains(TagsOf(e), tag)
  }

  /** The entries the tag admits, in their original order. */
  function Tagged(coll: seq<Record>, tag: string): (kept: seq<Record>)
    decreases |coll|
  {
    if coll == [] then []
    else
      var last := coll[|coll| - 1];
      Tagged(coll[..|coll| - 1], tag) + (if Admits(last, tag) then [last] else [])
  }

  lemma {:induction false} TaggedMembers(coll: seq<Record>, tag: string, e: Record)
    ensures e in Tagged(coll, tag) <==> e in coll && Admits(e, tag)
  {
    if coll != [] {
      var n := |coll| - 1;
      TaggedMembers(coll[..n], tag, e);
      assert coll == coll[..n] + [coll[n]];
    }
  }

  /** The empty tag admits every entry, so filtering by it is the identity. */
  lemma {:induction false} EmptyTagKeepsAll(coll: seq<Record>)
    ensures Tagged(coll, "") == coll
  {
    if coll != [] {
      var n := |coll| - 1;
      EmptyTagKeepsAll(coll[..n]);
      EmptyOccursEverywhere(TagsOf(coll[n]));
      assert coll == coll[..n] + [coll[n]];
    }
  }

  /** An entry tagged "item" is left out of a "list" response. */
  lemma ItemTagNotInList()
    ensures !Admits(map["tags" := Str("item")], "list")
  {
    assert TagsOf(map["tags" := Str("item")]) == "item";
    assert "item"[0] != "list"[0];
    assert !OccursAt("item", "list", 0);
  }

  /** `tagFilter`: all entries when the tag is empty, otherwise those whose tags
      are empty or contain the tag, in order. */
  method TagFilter(coll: seq<Record>, tag: string) returns (rtn: seq<Record>)
    requires Readable(coll, tag)
    ensures tag == "" ==> rtn == coll
    ensures rtn == Tagged(coll, tag)
  {
    if tag == "" {
      rtn := coll;
      EmptyTagKeepsAll(coll);
    } else {
      rtn := [];
      for i := 0 to |coll|
        invariant rtn == Tagged(coll[..i], tag)
      {
        var item := coll[i];
        var f := TagsOf(item);
        if f == "" {
          rtn := rtn + [item];
        } else if Contains(f, tag) {
          rtn := rtn + [item];
        }
        assert coll[..i + 1][..i] == coll[..i];
      }
      assert coll[..|coll|] == coll;
    }
  }

  // ---------------------------------------------------------------------------
  // handler

  /** What the handler reads from the request: the Accept test and the parts of the url. */
  datatype HttpRequest = HttpRequest(accepts: string -> bool, host: string, url: string)

  /** The route's representation settings; absent lists are the empty ones. */
  datatype Config = Config(filter: string, templates: seq<Template>,
                           pageForms: seq<Record>, itemForms: seq<Record>, metadata: seq<Record>)

  /** What the handler sends: a problem document list (`application/problem+json`,
      body `{error: problems}`) with an HTTP status, or a render context for the
      negotiated template. */
  datatype Response =
    | Problem(status: int, problems: seq<Record>)
    | Rendered(template: Template, records: seq<Record>, kind: string,
               pageForms: seq<Record>, itemForms: seq<Record>, metadata: seq<Record>)

  predicate IsErrorRecord(r: Record)
  {
    "type" in r && r["type"] == Str("error")
  }

  /** A fulfilled result the handler reads as an error: a list whose first
      record is an error record, or an error record on its own. */
  predicate ErrorShaped(p: Payload)
  {
    (p.Many? && |p.items| != 0 && IsErrorRecord(p.items[0])) || (p.One? && IsErrorRecord(p.item))
  }

  function InstanceUrl(req: HttpRequest): string
  {
    "http://" + req.host + req.url
  }

  /** The one problem document the `.catch` path sends. */
  function ServerError(url: string, message: Option<string>): Record
  {
    Exception(Some(Str("Server error")),
              Some(Str(if message.Some? && message.value != "" then message.value else "Internal error")),
              Some(Str("500")), Some(Str("error")), url)
  }

  /** `err.message`: the dispatcher's `{error: ...}` rejection has none. */
  function MessageOf(reason: Reason): Option<string>
  {
    match reason
    case Invalid(_) => None
    case Thrown(m) => Some(m)
  }

  /** The problem document made from an error-shaped result. */
  function StoreProblem(p: Payload, url: string): (problem: Record)
    requires ErrorShaped(p)
  {
    if p.Many? then
      var b := p.items[0];
      Exception(Or(Get(b, "name"), Get(b, "title")), Or(Get(b, "message"), Get(b, "detail")),
                Or(Get(b, "code"), Get(b, "status")), Get(b, "oType"), url)
    else
      var b := p.item;
      Exception(Or(Get(b, "name"), Get(b, "title")), Get(b, "detail"),
                Or(Get(b, "code"), Get(b, "status")), Get(b, "oType"), url)
  }

  /** `handler`: negotiates the template, filters forms and metadata by the
      route's tag, and classifies the action's settlement into a response.
      `typeErrorMessage` is the engine's message for reading a property of
      `null` or `undefined`, which the `.catch` path reports. */
  method Handler(req: HttpRequest, settled: Settlement, kind: string, config: Config, typeErrorMessage: string)
    returns (res: Response)
    requires Readable(config.pageForms, config.filter)
    requires Readable(config.itemForms, config.filter)
    requires Readable(config.metadata, config.filter)
    // a rejected action, or a null/undefined result, becomes one 500 "Server error" problem
    ensures settled.Rejected? ==> res == Problem(500, [ServerError(InstanceUrl(req), MessageOf(settled.reason))])
    ensures settled.Fulfilled? && (settled.payload.JsNull? || settled.payload.JsUndefined?) ==>
      res == Problem(500, [ServerError(InstanceUrl(req), Some(typeErrorMessage))])
    // an error-shaped result becomes one problem, always sent with HTTP status 400
    ensures settled.Fulfilled? && ErrorShaped(settled.payload) ==>
      res == Problem(400, [StoreProblem(settled.payload, InstanceUrl(req))])
    // any other list passes through; any other record is wrapped as a one-element list
    ensures settled.Fulfilled? && settled.payload.Many? && !ErrorShaped(settled.payload) ==>
      if kind == "error" then res == Problem(400, settled.payload.items)
      else res.Rendered? && res.records == settled.payload.items &&
           res.kind == (if kind != "" then kind else "collection")
    ensures settled.Fulfilled? && settled.payload.One? && !ErrorShaped(settled.payload) ==>
      if kind == "error" then res == Problem(400, [settled.payload.item])
      else res.Rendered? && res.records == [settled.payload.item] &&
           res.kind == (if kind != "" then kind else "item")
    // a rendered response uses the negotiated template and the tag-filtered affordances
    ensures res.Rendered? ==>
      && Resolved(req.accepts, config.templates, res.template)
      && res.pageForms == Tagged(config.pageForms, config.filter)
      && res.itemForms == Tagged(config.itemForms, config.filter)
      && res.metadata == Tagged(config.metadata, config.filter)
    ensures res.Problem? ==> res.status in {400, 500}
  {
    var oType := if kind != "" then kind else "collection";
    var template := ResolveAccepts(req.accepts, config.templates);
    var pForms := TagFilter(config.pageForms, config.filter);
    var iForms := TagFilter(config.itemForms, config.filter);
    var metadata := TagFilter(config.metadata, config.filter);
    var url := InstanceUrl(req);
    var xr: seq<Record> := [];
    var rtn: seq<Record>;

    if settled.Rejected? {
      xr := xr + [ServerError(url, MessageOf(settled.reason))];
      res := Problem(500, xr);
      return;
    }
    var body := settled.payload;
    if body.Many? {
      oType := if kind != "" then kind else "collection";
      if |body.items| != 0 && IsErrorRecord(body.items[0]) {
        xr := xr + [StoreProblem(body, url)];
        rtn := xr;
        oType := "error";
      } else {
        rtn := body.items;
      }
    } else if body.One? {
      oType := if kind != "" then kind else "item";
      if IsErrorRecord(body.item) {
        xr := xr + [StoreProblem(body, url)];
        rtn := xr;
        oType := "error";
      } else {
        rtn := [body.item];
      }
    } else {
      // reading `type` of null or undefined throws inside `.then`; `.catch` answers
      xr := xr + [ServerError(url, Some(typeErrorMessage))];
      res := Problem(500, xr);
      return;
    }

    if oType == "error" {
      // `rtn` is a list, so `rtn.code` is undefined and the status is always 400
      res := Problem(400, rtn);
    } else {
      res := Rendered(template, rtn, oType, pForms, iForms, metadata);
    }
  }

  /** The `.catch` path: one problem document, titled "Server error", with
      status "500", sent with HTTP status 500. */
  lemma RejectionIsServerError(url: string, reason: Reason)
    requires url != ""
    ensures var p := ServerError(url, MessageOf(reason));
      p["title"] == Str("Server error") && p["status"] == Str("500") &&
      p["type"] == Str("error") && p["instance"] == Str(url)
  {
    assert ToText(Str("500")) == "500";
  }
}
