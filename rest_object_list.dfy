/**
  `RESTObjectList<T>`: the paged envelope a paged `list` call decodes. Its
  fields start at their declared defaults, and `init(with:)` overwrites them
  one by one from the decoded JSON object. `T(with:)` is passed in as `make`.
 */
module RestObjectList {
  import opened Wrappers
  import opened Json

  /** Keys whose values `init(with:)` force-casts (`as!`): each must hold a 64-bit integer. */
  predicate HasInt64(m: map<string, Json>, key: string) {
    key in m && AsInt64(m[key]).Some?
  }

  /** What `init(with:)` needs of a non-nil map so that none of its forced casts traps. */
  predicate Decodable(m: map<string, Json>) {
    && HasInt64(m, "totalRecords")
    && HasInt64(m, "page")
    && HasInt64(m, "perPage")
    && ("info" in m ==> AsStringArray(m["info"]).Some?)
  }

  /** `with!["key"] as! Int64` */
  function RequiredInt64(m: map<string, Json>, key: string): (r: int64)
    requires HasInt64(m, key)
    ensures m[key] == Int(r as int)
  {
    AsInt64(m[key]).value
  }

  /** The elements `init(with:)` decodes: the objects of "list" when it is an array of
      objects, otherwise none. */
  function ListItems(m: map<string, Json>): (r: seq<map<string, Json>>)
    ensures "list" in m && m["list"].Arr? && AllObjects(m["list"].items) ==>
      |r| == |m["list"].items| && forall k :: 0 <= k < |r| ==> Obj(r[k]) == m["list"].items[k]
    ensures !("list" in m && m["list"].Arr? && AllObjects(m["list"].items)) ==> r == []
  {
    FieldObjects(m, "list").GetOr([])
  }

  /** `with!["succeeded"] as? Bool ?? false` */
  function Succeeded(m: map<string, Json>): (r: bool)
    ensures r <==> "succeeded" in m && m["succeeded"] == Bool(true)
  {
    FieldBool(m, "succeeded").GetOr(false)
  }

  /** The server's messages: replaced only when "info" is present. */
  function InfoOf(m: map<string, Json>): (r: seq<string>)
    requires Decodable(m)
    ensures "info" !in m ==> r == []
    ensures "info" in m ==> |r| == |m["info"].items|
    ensures "info" in m ==> forall k :: 0 <= k < |r| ==> Str(r[k]) == m["info"].items[k]
  {
    if "info" in m then AsStringArray(m["info"]).value else []
  }

  class RESTObjectList<T> {
    var totalRecords: int64
    var page: int64
    var perPage: int64
    var list: seq<T>
    var succeeded: bool
    var info: seq<string>

    /** The declared defaults. */
    predicate HasDefaults()
      reads this
    {
      totalRecords == 0 && page == 0 && perPage == 10 && list == [] && succeeded && info == []
    }

    /** `init()` */
    constructor ()
      ensures HasDefaults()
    {
      totalRecords, page, perPage := 0, 0, 10;
      list, succeeded, info := [], true, [];
    }

    /** `init(with:)` */
    constructor FromJson(with: Option<map<string, Json>>, make: map<string, Json> -> T)
      requires with.Some? ==> Decodable(with.value)
      ensures with.None? ==> HasDefaults()
      ensures with.Some? ==>
        var m := with.value;
        && |list| == |ListItems(m)|
        && (forall k :: 0 <= k < |list| ==> list[k] == make(ListItems(m)[k]))
        && totalRecords == RequiredInt64(m, "totalRecords")
        && page == RequiredInt64(m, "page")
        && perPage == RequiredInt64(m, "perPage")
        && succeeded == Succeeded(m)
        && info == InfoOf(m)
    {
      totalRecords, page, perPage := 0, 0, 10;
      list, succeeded, info := [], true, [];
      new;
      if with.Some? {
        var m := with.value;
        match FieldObjects(m, "list") {
          case Some(items) =>
            list := DecodeEach(items, make);
          case None =>
        }
        totalRecords := AsInt64(m["totalRecords"]).value;
        page := AsInt64(m["page"]).value;
        perPage := AsInt64(m["perPage"]).value;
        succeeded := FieldBool(m, "succeeded").GetOr(false);
        if "info" in m {
          info := AsStringArray(m["info"]).value;
        }
      }
    }
  }

  /** Nothing ties the number of decoded elements to the reported total. */
  lemma NoCrossCheck()
    ensures var m := map["list" := Arr([]), "totalRecords" := Int(5), "page" := Int(0), "perPage" := Int(50)];
      Decodable(m) && |ListItems(m)| == 0 && RequiredInt64(m, "totalRecords") == 5
  {
    var m := map["list" := Arr([]), "totalRecords" := Int(5), "page" := Int(0), "perPage" := Int(50)];
    assert AllObjects(m["list"].items);
  }
}
