/** The service's response representations: the registry of templates in
    preference order and the list of media types it supports. Only the plain
    JSON template is defined here; the forms, CSV, links and pragmatic JSON
    templates are parameters. */
module Representation {
  import opened JsValues
  import opened Utils

  /** The service accepts form-encoded bodies. */
  const Urlencoded: bool := true

  /** The plain JSON representor; its view stands for the markup template
      that renders the records. */
  const AppJson: Template := Template("application/json", "app-json")

  /** `getTemplates`: the registry, plain JSON first, then forms, CSV, links and pragmatic JSON. */
  function GetTemplates(formsJson: Template, textCsv: Template, linksJson: Template, pragJson: Template): (list: seq<Template>)
    ensures |list| == 5
    ensures list[0] == AppJson && list[1] == formsJson && list[2] == textCsv
    ensures list[3] == linksJson && list[4] == pragJson
  {
    [AppJson, formsJson, textCsv, linksJson, pragJson]
  }

  /** `getResponseTypes`: the formats of the registered templates, in registry order. */
  method GetResponseTypes(formsJson: Template, textCsv: Template, linksJson: Template, pragJson: Template)
    returns (rtn: seq<string>)
    ensures |rtn| == 5
    ensures forall i :: 0 <= i < 5 ==> rtn[i] == GetTemplates(formsJson, textCsv, linksJson, pragJson)[i].format
    ensures rtn[0] == "application/json"
  {
    rtn := [];
    var viewList := GetTemplates(formsJson, textCsv, linksJson, pragJson);
    for i := 0 to |viewList|
      invariant |rtn| == i
      invariant forall j :: 0 <= j < i ==> rtn[j] == viewList[j].format
    {
      rtn := rtn + [viewList[i].format];
    }
  }

  /** A client that accepts JSON always gets the plain JSON template, whatever
      else it accepts, because that template is registered first. */
  lemma {:induction false} PrefersPlainJson(accepts: string -> bool, formsJson: Template, textCsv: Template,
                                            linksJson: Template, pragJson: Template, r: Template)
    requires accepts("application/json")
    requires Resolved(accepts, GetTemplates(formsJson, textCsv, linksJson, pragJson), r)
    ensures r == AppJson
  {
    var ts := GetTemplates(formsJson, textCsv, linksJson, pragJson);
    assert accepts(ts[0].format);
    var i :| 0 <= i < |ts| && accepts(ts[i].format) && r == ts[i] &&
      forall j :: 0 <= j < i ==> !accepts(ts[j].format);
  }

  /** A client that accepts none of the registered formats gets the JSON
      fallback: the same media type as the plain JSON template, with no view. */
  lemma FallbackForUnknownTypes(accepts: string -> bool, formsJson: Template, textCsv: Template,
                                linksJson: Template, pragJson: Template, r: Template)
    requires forall t :: t in GetTemplates(formsJson, textCsv, linksJson, pragJson) ==> !accepts(t.format)
    requires Resolved(accepts, GetTemplates(formsJson, textCsv, linksJson, pragJson), r)
    ensures r.format == AppJson.format && r.view == ""
  {
    var ts := GetTemplates(formsJson, textCsv, linksJson, pragJson);
    assert forall i :: 0 <= i < |ts| ==> ts[i] in ts;
  }
}
