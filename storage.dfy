/** The file-backed record store: every collection is a folder, every record a
    file named by its id. The folders are modelled as a map from collection
    name to a map from id to record; the order in which a folder lists its
    files is arbitrary. Identifier generation and the clock are parameters. */
module Storage {
  import opened JsValues

  /** A filter: query keys and their values, in the order the keys are visited. */
  type Filter = Query

  type Folders = map<string, map<string, Record>>

  // ---------------------------------------------------------------------------
  // Error records

  /** The arguments the store hands to its `exception` helper. */
  datatype ErrorArgs = ErrorArgs(kind: Option<string>, title: Option<string>, detail: Option<string>,
                                 code: Option<int>, url: Option<string>, debug: Option<string>)

  /** A string argument that is present and truthy. */
  predicate Filled(o: Option<string>)
  {
    o.Some? && o.value != ""
  }

  /** The store's error record, shaped after an RFC 7807 problem document. */
  function Exception(args: ErrorArgs): (rtn: Record)
    ensures rtn.Keys <= {"type", "title", "detail", "status", "instance", "debug"}
    ensures "type" in rtn && "title" in rtn && "status" in rtn
    ensures rtn["type"] == Str(if Filled(args.kind) then args.kind.value else "error")
    ensures rtn["title"] == Str(if Filled(args.title) then args.title.value else "Error")
    ensures Filled(args.detail) ==> "detail" in rtn && rtn["detail"] == Str(args.detail.value)
    ensures !Filled(args.detail) ==> ("detail" in rtn <==> args.title.Some?)
    ensures !Filled(args.detail) && args.title.Some? ==> rtn["detail"] == Str(args.title.value)
    ensures args.code.Some? && args.code.value != 0 ==> rtn["status"] == Num(args.code.value)
    ensures !(args.code.Some? && args.code.value != 0) ==> rtn["status"] == Str("400")
    ensures "instance" in rtn <==> Filled(args.url)
    ensures "debug" in rtn <==> Filled(args.debug)
  {
    var base := map[
      "type" := Str(if Filled(args.kind) then args.kind.value else "error"),
      "title" := Str(if Filled(args.title) then args.title.value else "Error"),
      "status" := if args.code.Some? && args.code.value != 0 then Num(args.code.value) else Str("400")];
    var detail := if Filled(args.detail) then args.detail else args.title;
    var withDetail := if detail.Some? then base["detail" := Str(detail.value)] else base;
    var withInstance := if Filled(args.url) then withDetail["instance" := Str(args.url.value)] else withDetail;
    if Filled(args.debug) then withInstance["debug" := Str(args.debug.value)] else withInstance
  }

  function Title(name: string): string
  {
    "SimpleStorage: [" + name + "]"
  }

  /** The error record a read of an absent record yields. */
  function NotFound(c: string, id: string): Record
  {
    Exception(ErrorArgs(None, Some(Title(c)), Some("Not Found [" + id + "]"), Some(400), None, None))
  }

  // ---------------------------------------------------------------------------
  // Field projection

  /** Narrows a record to the listed fields; no fields means the whole record. */
  function ApplyFields(item: Record, fields: seq<string>): (rtn: Record)
    ensures |fields| == 0 ==> rtn == item
    ensures |fields| != 0 ==> forall k :: k in rtn <==> k in item && k in fields
    ensures forall k :: k in rtn ==> k in item && rtn[k] == item[k]
  {
    if |fields| == 0 then item else map k | k in item && k in fields :: item[k]
  }

  /** The projection applied to every record of a list. */
  function Project(recs: seq<Record>, fields: seq<string>): (r: seq<Record>)
    ensures |r| == |recs|
    ensures forall i :: 0 <= i < |recs| ==> r[i] == ApplyFields(recs[i], fields)
    ensures |fields| == 0 ==> r == recs
  {
    seq(|recs|, i requires 0 <= i < |recs| => ApplyFields(recs[i], fields))
  }

  // ---------------------------------------------------------------------------
  // The "contains" filter

  /** The record's field, as lower-cased text, contains the lower-cased value.
      A missing field or a `null` one throws in the source and does not match. */
  predicate FieldMatches(item: Record, name: string, value: string)
  {
    name in item && item[name] != Null && Contains(Lower(ToText(item[name])), Lower(value))
  }

  /** Whether the scan over the filter's keys leaves the record marked as kept:
      each key with a non-empty value overwrites the mark with its own test. */
  predicate Verdict(item: Record, filter: Filter)
    decreases |filter|
  {
    if filter == [] then false
    else
      var (name, value) := filter[|filter| - 1];
      if value != "" then FieldMatches(item, name, value) else Verdict(item, filter[..|filter| - 1])
  }

  /** No filter keeps every record. */
  predicate Keeps(item: Record, filter: Option<Filter>)
  {
    filter.None? || Verdict(item, filter.value)
  }

  /** `k` is the last filter key whose value is non-empty. */
  predicate LastActive(filter: Filter, k: int)
  {
    0 <= k < |filter| && filter[k].1 != "" && forall j :: k < j < |filter| ==> filter[j].1 == ""
  }

  lemma LastActiveUnique(filter: Filter, k: int, m: int)
    requires LastActive(filter, k) && LastActive(filter, m)
    ensures k == m
  {
  }

  /** A record is kept iff it matches the last filter key with a non-empty
      value; the keys before it do not matter. */
  lemma {:induction false} VerdictIsLastActive(item: Record, filter: Filter)
    ensures Verdict(item, filter) <==>
      exists k :: LastActive(filter, k) && FieldMatches(item, filter[k].0, filter[k].1)
  {
    if filter != [] {
      var n := |filter| - 1;
      if filter[n].1 != "" {
        assert LastActive(filter, n);
        forall k | LastActive(filter, k) ensures k == n {
          LastActiveUnique(filter, k, n);
        }
      } else {
        var front := filter[..n];
        VerdictIsLastActive(item, front);
        forall k | 0 <= k < n ensures LastActive(filter, k) <==> LastActive(front, k) {
        }
        assert !LastActive(filter, n);
        if Verdict(item, filter) {
          var k :| LastActive(front, k) && FieldMatches(item, front[k].0, front[k].1);
          assert LastActive(filter, k);
        }
      }
    }
  }

  /** When every filter value is empty, no record is kept. */
  lemma AllBlankKeepsNothing(item: Record, filter: Filter)
    requires forall j :: 0 <= j < |filter| ==> filter[j].1 == ""
    ensures !Verdict(item, filter)
  {
    VerdictIsLastActive(item, filter);
  }

  /** A record missing the last active key's field, or holding `null` there, is dropped. */
  lemma MissingFieldDrops(item: Record, filter: Filter, k: int)
    requires LastActive(filter, k)
    requires filter[k].0 !in item || item[filter[k].0] == Null
    ensures !Verdict(item, filter)
  {
    VerdictIsLastActive(item, filter);
    forall m | LastActive(filter, m) ensures m == k {
      LastActiveUnique(filter, m, k);
    }
  }

  /** The filter is not a conjunction over its keys: a record whose `name`
      does not match is kept because the later `email` key matches. */
  lemma FilterIsNotConjunction()
    ensures var item := map["name" := Str("ann"), "email" := Str("b@c")];
            var filter := [("name", "zed"), ("email", "b@")];
            Verdict(item, filter) && !FieldMatches(item, "name", "zed")
  {
    var item := map["name" := Str("ann"), "email" := Str("b@c")];
    var filter := [("name", "zed"), ("email", "b@")];
    assert Lower("b@c") == "b@c";
    assert Lower("b@") == "b@";
    assert OccursAt("b@c", "b@", 0);
    assert Lower("zed") == "zed";
    assert Lower("ann") == "ann";
    assert "ann"[0..3] == "ann" && "ann"[0] != "zed"[0];
    assert !OccursAt("ann", "zed", 0);
  }

  // ---------------------------------------------------------------------------
  // Listing a collection

  predicate Distinct(names: seq<string>)
  {
    forall i, j :: 0 <= i < j < |names| ==> names[i] != names[j]
  }

  /** `names` lists every record of the folder exactly once, in some order. */
  ghost predicate IsListing(names: seq<string>, folder: map<string, Record>)
  {
    Distinct(names) && forall n :: n in names <==> n in folder
  }

  /** The records of the folder, visited in listing order, that the filter keeps. */
  function Selected(folder: map<string, Record>, names: seq<string>, filter: Option<Filter>): (coll: seq<Record>)
    requires forall n :: n in names ==> n in folder
    decreases |names|
  {
    if names == [] then []
    else
      var last := names[|names| - 1];
      Selected(folder, names[..|names| - 1], filter) + (if Keeps(folder[last], filter) then [folder[last]] else [])
  }

  /** What `getList` returns: the selected records, projected; an unreadable
      or missing collection gives the empty list. */
  function ListReply(folders: Folders, c: string, listing: seq<string>, filter: Option<Filter>, fields: seq<string>): (reply: seq<Record>)
    requires c in folders ==> IsListing(listing, folders[c])
  {
    if c in folders then Project(Selected(folders[c], listing, filter), fields) else []
  }

  lemma {:induction false} SelectedMembers(folder: map<string, Record>, names: seq<string>, filter: Option<Filter>, r: Record)
    requires forall n :: n in names ==> n in folder
    ensures r in Selected(folder, names, filter) <==>
      exists id :: id in names && r == folder[id] && Keeps(folder[id], filter)
  {
    if names != [] {
      var n := |names| - 1;
      var front := names[..n];
      assert names == front + [names[n]];
      SelectedMembers(folder, front, filter, r);
      if r in Selected(folder, names, filter) && r !in Selected(folder, front, filter) {
        assert r == folder[names[n]] && Keeps(folder[names[n]], filter);
      }
      if exists id :: id in names && r == folder[id] && Keeps(folder[id], filter) {
        var id :| id in names && r == folder[id] && Keeps(folder[id], filter);
        if id != names[n] {
          assert id in front;
        }
      }
    }
  }

  lemma {:induction false} UnfilteredSelected(folder: map<string, Record>, names: seq<string>)
    requires forall n :: n in names ==> n in folder
    ensures |Selected(folder, names, None)| == |names|
    ensures forall i :: 0 <= i < |names| ==> Selected(folder, names, None)[i] == folder[names[i]]
  {
    if names != [] {
      var n := |names| - 1;
      UnfilteredSelected(folder, names[..n]);
    }
  }

  /** A selection has at most one record per listed name. */
  lemma {:induction false} SelectedLength(folder: map<string, Record>, names: seq<string>, filter: Option<Filter>)
    requires forall n :: n in names ==> n in folder
    ensures |Selected(folder, names, filter)| <= |names|
  {
    if names != [] {
      SelectedLength(folder, names[..|names| - 1], filter);
    }
  }

  lemma {:induction false} DistinctSize(names: seq<string>)
    requires Distinct(names)
    ensures |set n | n in names| == |names|
  {
    if names != [] {
      var k := |names| - 1;
      var front := names[..k];
      DistinctSize(front);
      assert (set n | n in names) == (set n | n in front) + {names[k]};
      assert names[k] !in front;
    }
  }

  lemma ListingSize(names: seq<string>, folder: map<string, Record>)
    requires IsListing(names, folder)
    ensures |names| == |folder|
  {
    DistinctSize(names);
    assert (set n | n in names) == folder.Keys;
  }

  /** Without a filter, listing a collection returns every one of its records;
      a missing collection lists as empty instead of failing. */
  lemma ListIsEverything(folders: Folders, c: string, listing: seq<string>)
    requires c in folders ==> IsListing(listing, folders[c])
    ensures c !in folders ==> ListReply(folders, c, listing, None, []) == []
    ensures c in folders ==> |ListReply(folders, c, listing, None, [])| == |folders[c]|
    ensures c in folders ==> forall id :: id in folders[c] ==> folders[c][id] in ListReply(folders, c, listing, None, [])
    ensures c in folders ==> |ListReply(folders, c, listing, None, [])| == |listing|
    ensures c in folders ==> forall i :: 0 <= i < |listing| ==> ListReply(folders, c, listing, None, [])[i] == folders[c][listing[i]]
  {
    if c in folders {
      var folder := folders[c];
      var r := ListReply(folders, c, listing, None, []);
      UnfilteredSelected(folder, listing);
      ListingSize(listing, folder);
      forall id | id in folder ensures folder[id] in r {
        var i :| 0 <= i < |listing| && listing[i] == id;
        assert r[i] == folder[id];
      }
    }
  }

  /** A listing never holds more records than the collection, and holds as
      many when there is no filter; projection keeps the count. */
  lemma ListReplySize(folders: Folders, c: string, listing: seq<string>, filter: Option<Filter>, fields: seq<string>)
    requires c in folders ==> IsListing(listing, folders[c])
    ensures c !in folders ==> ListReply(folders, c, listing, filter, fields) == []
    ensures c in folders ==> |ListReply(folders, c, listing, filter, fields)| <= |folders[c]|
    ensures c in folders && filter.None? ==> |ListReply(folders, c, listing, filter, fields)| == |folders[c]|
  {
    if c in folders {
      ListingSize(listing, folders[c]);
      SelectedLength(folders[c], listing, filter);
      if filter.None? {
        UnfilteredSelected(folders[c], listing);
      }
    }
  }

  /** A filtered listing holds exactly the collection's records that the filter keeps. */
  lemma FilteredListExactly(folders: Folders, c: string, listing: seq<string>, filter: Filter, r: Record)
    requires c in folders && IsListing(listing, folders[c])
    ensures r in ListReply(folders, c, listing, Some(filter), []) <==>
      exists id :: id in folders[c] && r == folders[c][id] && Verdict(r, filter)
  {
    SelectedMembers(folders[c], listing, Some(filter), r);
  }

  /** Enumerates a folder in an arbitrary order, as a directory listing would. */
  method ReadDir(folder: map<string, Record>) returns (names: seq<string>)
    ensures IsListing(names, folder)
  {
    names := [];
    var rest := folder.Keys;
    while rest != {}
      invariant forall n :: n in folder <==> n in rest || n in names
      invariant forall n :: n in names ==> n !in rest
      invariant Distinct(names)
      decreases |rest|
    {
      var n :| n in rest;
      names := names + [n];
      rest := rest - {n};
    }
  }

  // ---------------------------------------------------------------------------
  // The effect of each mutating operation

  /** The error a read of a missing record or collection yields, then projected. */
  function ItemReply(folders: Folders, c: string, id: string, fields: seq<string>): (reply: Record)
  {
    ApplyFields(if c in folders && id in folders[c] then folders[c][id] else NotFound(c, id), fields)
  }

  /** The id `addItem` gives a record: the supplied one if truthy, else a generated one. */
  function AssignedId(id: Option<string>, generated: string): string
  {
    if Filled(id) then id.value else generated
  }

  /** The item as `addItem` writes it: id and both timestamps set. */
  function Stamped(item: Record, id: string, now: nat): Record
  {
    item["id" := Str(id)]["dateCreated" := Date(now)]["dateUpdated" := Date(now)]
  }

  function Added(folders: Folders, c: string, item: Record, id: Option<string>, generated: string, now: nat): (result: (Folders, Record))
  {
    var newId := AssignedId(id, generated);
    if c in folders && newId in folders[c] then
      (folders, Exception(ErrorArgs(None, Some(Title(c)), Some("Record already exists"), None, None, None)))
    else if c !in folders then
      (folders, Exception(ErrorArgs(None, Some(Title(c)), Some("Unable to add item"), Some(400), None, None)))
    else
      (folders[c := folders[c][newId := Stamped(item, newId, now)]], Stamped(item, newId, now))
  }

  function Updated(folders: Folders, c: string, item: Record, id: string, now: nat): (result: (Folders, Record))
  {
    var current := item["dateUpdated" := Date(now)];
    if c in folders then (folders[c := folders[c][id := current]], current)
    else (folders, Exception(ErrorArgs(None, Some(Title(c)), Some("Unable to update item"), Some(400), None, None)))
  }

  function Removed(folders: Folders, c: string, id: string): Folders
  {
    if c in folders && id in folders[c] then folders[c := folders[c] - {id}] else folders
  }

  /** `null` prints as "null" where the source concatenates it into a path or title. */
  function PathName(o: Option<string>): string
  {
    if o.Some? then o.value else "null"
  }

  function Created(folders: Folders, obj: Option<string>): (result: (Folders, Option<Record>))
  {
    if !Filled(obj) then
      (folders, Some(Exception(ErrorArgs(None, Some(Title(PathName(obj))), Some("unable to create object"), Some(400), None, None))))
    else if obj.value in folders then
      (folders, Some(Exception(ErrorArgs(None, Some(Title(obj.value)), Some("error creating folder/object"), Some(400), None, None))))
    else
      (folders[obj.value := map[]], None)
  }

  // ---------------------------------------------------------------------------
  // Properties of the operations

  /** Reading an absent record yields an error record, with status 400. */
  lemma MissingItemIsError(folders: Folders, c: string, id: string)
    requires !(c in folders && id in folders[c])
    ensures var r := ItemReply(folders, c, id, []);
      r["type"] == Str("error") && r["title"] == Str("SimpleStorage: [" + c + "]") &&
      r["detail"] == Str("Not Found [" + id + "]") && r["status"] == Num(400) &&
      "instance" !in r
  {
  }

  /** The projection applies to the error record too: with a field list that
      does not name `type`, a failed read is no longer recognisable as an error. */
  lemma MissingItemProjected(folders: Folders, c: string, id: string, fields: seq<string>)
    requires !(c in folders && id in folders[c])
    requires |fields| != 0 && "type" !in fields
    ensures "type" !in ItemReply(folders, c, id, fields)
  {
  }

  /** `addItem` on a fresh id: the collection gains exactly that record, with its
      id set and `dateUpdated` equal to `dateCreated`, and the read-back is returned. */
  lemma AddStoresStampedRecord(folders: Folders, c: string, item: Record, id: Option<string>, generated: string, now: nat)
    requires c in folders && AssignedId(id, generated) !in folders[c]
    ensures var (after, r) := Added(folders, c, item, id, generated, now);
      var key := AssignedId(id, generated);
      && after == folders[c := folders[c][key := r]]
      && r["id"] == Str(key)
      && r["dateCreated"] == r["dateUpdated"] == Date(now)
      && (forall k :: k in r <==> k in item || k in {"id", "dateCreated", "dateUpdated"})
      && forall k :: k in item && k !in {"id", "dateCreated", "dateUpdated"} ==> k in r && r[k] == item[k]
  {
  }

  /** `addItem` on an existing id reports the conflict with the default status
      "400" and leaves the store unchanged. */
  lemma AddConflictChangesNothing(folders: Folders, c: string, item: Record, id: Option<string>, generated: string, now: nat)
    requires c in folders && AssignedId(id, generated) in folders[c]
    ensures var (after, r) := Added(folders, c, item, id, generated, now);
      after == folders && r["type"] == Str("error") &&
      r["detail"] == Str("Record already exists") && r["status"] == Str("400")
  {
  }

  /** `updateItem` replaces the record wholesale with the item plus a fresh
      `dateUpdated` (no field of the old record survives unless the item
      carries it), writes even when the id was absent, and touches no other record. */
  lemma UpdateReplacesWholesale(folders: Folders, c: string, item: Record, id: string, now: nat)
    requires c in folders
    ensures var (after, r) := Updated(folders, c, item, id, now);
      && after.Keys == folders.Keys
      && id in after[c] && after[c][id] == r
      && (forall k :: k in r <==> k in item || k == "dateUpdated")
      && r["dateUpdated"] == Date(now)
      && (forall k :: k in item && k != "dateUpdated" ==> r[k] == item[k])
      && (forall k :: k in folders[c] && k != id ==> k in after[c] && after[c][k] == folders[c][k])
      && (forall d :: d in folders && d != c ==> after[d] == folders[d])
  {
  }

  /** After `removeItem`, the returned list holds exactly the records stored
      under the other ids of the collection. */
  lemma RemoveListsTheRest(folders: Folders, c: string, id: string, listing: seq<string>, r: Record)
    requires c in folders
    requires IsListing(listing, Removed(folders, c, id)[c])
    ensures r in ListReply(Removed(folders, c, id), c, listing, None, []) <==>
      exists k :: k in folders[c] && k != id && r == folders[c][k]
  {
    var after := Removed(folders, c, id);
    SelectedMembers(after[c], listing, None, r);
    if exists k :: k in folders[c] && k != id && r == folders[c][k] {
      var k :| k in folders[c] && k != id && r == folders[c][k];
      assert k in listing && after[c][k] == r;
    }
  }

  // ---------------------------------------------------------------------------
  // The store

  /** The arguments `main` receives; absent strings and lists are the empty ones. */
  datatype StorageArgs = StorageArgs(action: string, collection: string, filter: Option<Filter>,
                                     id: string, item: Record, fields: seq<string>)

  /** `x || null` on a string argument. */
  function Nullable(s: string): (o: Option<string>)
    ensures o.None? <==> s == ""
    ensures o.Some? ==> o.value == s
  {
    if s == "" then None else Some(s)
  }

  const StoreActions: set<string> := {"create", "list", "filter", "item", "add", "update", "remove"}

  class Store {
    var folders: Folders

    constructor ()
      ensures folders == map[]
    {
      folders := map[];
    }

    /** `getList`: the records of collection `c` that the filter keeps, projected. */
    method GetList(c: string, filter: Option<Filter>, fields: seq<string>) returns (coll: seq<Record>, ghost listing: seq<string>)
      ensures c in folders ==> IsListing(listing, folders[c])
      ensures coll == ListReply(folders, c, listing, filter, fields)
    {
      coll := [];
      listing := [];
      if c in folders {
        var folder := folders[c];
        var list := ReadDir(folder);
        listing := list;
        for i := 0 to |list|
          invariant coll == Selected(folder, list[..i], filter)
        {
          var item := folder[list[i]];
          if filter.Some? {
            var keys := filter.value;
            var t: Option<string> := None;
            for j := 0 to |keys|
              invariant t.Some? == Verdict(item, keys[..j])
            {
              var (name, value) := keys[j];
              if value != "" {
                if FieldMatches(item, name, value) {
                  t := Some(list[i]);
                } else {
                  t := None;
                }
              }
              assert keys[..j + 1][..j] == keys[..j];
            }
            assert keys[..|keys|] == keys;
            if t.Some? {
              coll := coll + [item];
            }
          } else {
            coll := coll + [item];
          }
          assert list[..i + 1][..i] == list[..i];
        }
        assert list[..|list|] == list;
      }
      // project every selected record onto the requested fields
      ghost var selected := coll;
      for k := 0 to |coll|
        invariant |coll| == |selected|
        invariant forall m :: 0 <= m < k ==> coll[m] == ApplyFields(selected[m], fields)
        invariant forall m :: k <= m < |coll| ==> coll[m] == selected[m]
      {
        coll := coll[k := ApplyFields(coll[k], fields)];
      }
    }

    /** `getItem`: the record at `id`, or a not-found error record; projected. */
    method GetItem(c: string, id: string, fields: seq<string>) returns (rtn: Record)
      ensures c in folders && id in folders[c] ==> rtn == ApplyFields(folders[c][id], fields)
      ensures !(c in folders && id in folders[c]) ==> rtn == ApplyFields(NotFound(c, id), fields)
    {
      if c in folders && id in folders[c] {
        rtn := folders[c][id];
      } else {
        rtn := NotFound(c, id);
      }
      rtn := ApplyFields(rtn, fields);
    }

    /** `createObject`: a new, empty collection; `None` stands for `undefined`. */
    method CreateObject(obj: Option<string>) returns (rtn: Option<Record>)
      modifies this
      ensures (folders, rtn) == Created(old(folders), obj)
    {
      if Filled(obj) {
        if obj.value in folders {
          rtn := Some(Exception(ErrorArgs(None, Some(Title(obj.value)), Some("error creating folder/object"), Some(400), None, None)));
        } else {
          folders := folders[obj.value := map[]];
          rtn := None;
        }
      } else {
        rtn := Some(Exception(ErrorArgs(None, Some(Title(PathName(obj))), Some("unable to create object"), Some(400), None, None)));
      }
    }

    /** `addItem`: stores the stamped item under its id unless that id is taken. */
    method AddItem(c: string, item: Record, id: Option<string>, generated: string, now: nat) returns (rtn: Record)
      modifies this
      ensures (folders, rtn) == Added(old(folders), c, item, id, generated, now)
    {
      var stored := item;
      if Filled(id) {
        stored := stored["id" := Str(id.value)];
      } else {
        stored := stored["id" := Str(generated)];
      }
      stored := stored["dateCreated" := Date(now)];
      stored := stored["dateUpdated" := stored["dateCreated"]];
      var key := stored["id"].s;
      if c in folders && key in folders[c] {
        rtn := Exception(ErrorArgs(None, Some(Title(c)), Some("Record already exists"), None, None, None));
      } else if c in folders {
        folders := folders[c := folders[c][key := stored]];
        rtn := GetItem(c, key, []);
      } else {
        // writing into a missing folder fails
        rtn := Exception(ErrorArgs(None, Some(Title(c)), Some("Unable to add item"), Some(400), None, None));
      }
    }

    /** `updateItem`: overwrites the record at `id` with the item and a fresh `dateUpdated`. */
    method UpdateItem(c: string, item: Record, id: string, now: nat) returns (rtn: Record)
      modifies this
      ensures (folders, rtn) == Updated(old(folders), c, item, id, now)
    {
      var current := GetItem(c, id, []);
      // the source rejects a falsy `current` here, but a record is never falsy
      current := item;
      current := current["dateUpdated" := Date(now)];
      if c in folders {
        folders := folders[c := folders[c][id := current]];
        rtn := GetItem(c, id, []);
      } else {
        rtn := Exception(ErrorArgs(None, Some(Title(c)), Some("Unable to update item"), Some(400), None, None));
      }
    }

    /** `removeItem`: deletes the record if present; either way returns the list. */
    method RemoveItem(c: string, id: string) returns (coll: seq<Record>, ghost listing: seq<string>)
      modifies this
      ensures folders == Removed(old(folders), c, id)
      ensures c in folders ==> IsListing(listing, folders[c])
      ensures coll == ListReply(folders, c, listing, None, [])
    {
      if c in folders && id in folders[c] {
        folders := folders[c := folders[c] - {id}];
      }
      coll, listing := GetList(c, None, []);
    }

    /** `main`, the store's entry point: dispatches on the action string; an unknown action gives `null`. */
    method Dispatch(args: StorageArgs, generated: string, now: nat) returns (rtn: Payload, ghost listing: seq<string>)
      modifies this
      ensures args.action == "create" ==>
        var (after, r) := Created(old(folders), Nullable(args.collection));
        folders == after && rtn == (if r.Some? then One(r.value) else JsUndefined)
      ensures args.action in {"list", "filter"} ==>
        var c := PathName(Nullable(args.collection));
        var filter := if args.action == "list" then None else args.filter;
        && folders == old(folders)
        && (c in folders ==> IsListing(listing, folders[c]))
        && rtn == Many(ListReply(folders, c, listing, filter, args.fields))
      ensures args.action == "item" ==>
        folders == old(folders) &&
        rtn == One(ItemReply(folders, PathName(Nullable(args.collection)), PathName(Nullable(args.id)), args.fields))
      ensures args.action == "add" ==>
        var (after, r) := Added(old(folders), PathName(Nullable(args.collection)), args.item, Nullable(args.id), generated, now);
        folders == after && rtn == One(r)
      ensures args.action == "update" ==>
        var (after, r) := Updated(old(folders), PathName(Nullable(args.collection)), args.item, PathName(Nullable(args.id)), now);
        folders == after && rtn == One(r)
      ensures args.action == "remove" ==>
        var c := PathName(Nullable(args.collection));
        && folders == Removed(old(folders), c, PathName(Nullable(args.id)))
        && (c in folders ==> IsListing(listing, folders[c]))
        && rtn == Many(ListReply(folders, c, listing, None, []))
      ensures args.action !in StoreActions ==> folders == old(folders) && rtn == JsNull
    {
      var obj := Nullable(args.collection);
      var id := Nullable(args.id);
      listing := [];
      if args.action == "create" {
        var r := CreateObject(obj);
        rtn := if r.Some? then One(r.value) else JsUndefined;
      } else if args.action == "list" {
        var coll;
        coll, listing := GetList(PathName(obj), None, args.fields);
        rtn := Many(coll);
      } else if args.action == "filter" {
        var coll;
        coll, listing := GetList(PathName(obj), args.filter, args.fields);
        rtn := Many(coll);
      } else if args.action == "item" {
        var r := GetItem(PathName(obj), PathName(id), args.fields);
        rtn := One(r);
      } else if args.action == "add" {
        var r := AddItem(PathName(obj), args.item, id, generated, now);
        rtn := One(r);
      } else if args.action == "update" {
        var r := UpdateItem(PathName(obj), args.item, PathName(id), now);
        rtn := One(r);
      } else if args.action == "remove" {
        var coll;
        coll, listing := RemoveItem(PathName(obj), PathName(id));
        rtn := Many(coll);
      } else {
        rtn := JsNull;
      }
    }
  }
}
