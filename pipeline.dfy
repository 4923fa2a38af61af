/** How the pieces meet on a request: what a store error record and a refused
    request become once the handler has classified them. */
module Pipeline {
  import opened JsValues
  import Storage
  import Utils
  import Actions

  /** A read of an absent record reaches the client as one problem document
      with the store's title and detail and status "400", whether the record
      arrives alone or as the head of a list; the handler sends it with HTTP
      status 400. */
  lemma NotFoundIsClientError(c: string, id: string, url: string)
    ensures var one := One(Storage.NotFound(c, id));
      && Utils.ErrorShaped(one)
      && Utils.StoreProblem(one, url)["type"] == Str("error")
      && Utils.StoreProblem(one, url)["title"] == Str(Storage.Title(c))
      && Utils.StoreProblem(one, url)["detail"] == Str("Not Found [" + id + "]")
      && Utils.StoreProblem(one, url)["status"] == Str("400")
    ensures var many := Many([Storage.NotFound(c, id)]);
      && Utils.ErrorShaped(many)
      && Utils.StoreProblem(many, url)["title"] == Str(Storage.Title(c))
      && Utils.StoreProblem(many, url)["detail"] == Str("Not Found [" + id + "]")
      && Utils.StoreProblem(many, url)["status"] == Str("400")
  {
    var r := Storage.NotFound(c, id);
    assert "code" !in r && "name" !in r && "message" !in r && "oType" !in r;
    assert r["status"] == Num(400);
    assert Digits(4) == "4";
    assert Digits(40) == Digits(4) + "0";
    assert Digits(400) == Digits(40) + "0";
    assert ToText(Num(400)) == "400";
    assert r["title"] == Str("SimpleStorage: [" + c + "]");
    assert Truthy(r["title"]);
    assert Truthy(r["detail"]);
  }

  /** A request an action refuses reaches the client as a server error: the
      refusal object has no `message`, so the problem says "Internal error"
      and the action's own reason is not sent. */
  lemma RefusalIsInternalError(o: Actions.Outcome, component: Actions.ActionRequest -> Settlement, url: string)
    requires o.Refuse?
    ensures var s := Actions.Settle(o, component);
      && s.Rejected?
      && Utils.ServerError(url, Utils.MessageOf(s.reason))["detail"] == Str("Internal error")
      && Utils.ServerError(url, Utils.MessageOf(s.reason))["status"] == Str("500")
  {
  }
}
