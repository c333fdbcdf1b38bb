/**
  The URL builder of `Connection` and the shape of the URLs it produces.
 */
module Url {

  predicate EndsWithSlash(s: string) {
    |s| > 0 && s[|s| - 1] == '/'
  }

  /** `s + (s.hasSuffix("/") ? "" : "/")` */
  function WithTrailingSlash(s: string): (r: string)
    ensures EndsWithSlash(r)
    ensures s <= r
    ensures EndsWithSlash(s) ==> r == s
    ensures !EndsWithSlash(s) ==> r == s + "/"
  {
    if EndsWithSlash(s) then s else s + "/"
  }

  /** A part that starts with "/" loses its first character; any other part is kept verbatim. */
  function StripLeadingSlash(part: string): (r: string)
    ensures |part| > 0 && part[0] == '/' ==> r == part[1..]
    ensures !(|part| > 0 && part[0] == '/') ==> r == part
  {
    if |part| > 0 && part[0] == '/' then part[1..] else part
  }

  /** One iteration of the loop in `buildUrlString`. */
  function AppendPart(acc: string, part: string): string {
    WithTrailingSlash(acc + StripLeadingSlash(part))
  }

  /** What `buildUrlString(parts:)` returns for the connection's root path. */
  function BuildUrl(root: string, parts: seq<string>): string
    decreases |parts|
  {
    if parts == [] then WithTrailingSlash(root)
    else AppendPart(BuildUrl(root, parts[..|parts| - 1]), parts[|parts| - 1])
  }

  /** What a single part contributes once the result already ends in "/": its text without
      a leading slash, closed by a slash unless it is empty or already ends in one. */
  function Segment(part: string): (r: string)
    ensures r == [] || EndsWithSlash(r)
    ensures StripLeadingSlash(part) == [] || EndsWithSlash(StripLeadingSlash(part)) ==> r == StripLeadingSlash(part)
    ensures StripLeadingSlash(part) != [] && !EndsWithSlash(StripLeadingSlash(part)) ==> r == StripLeadingSlash(part) + "/"
  {
    var s := StripLeadingSlash(part);
    if s == [] || EndsWithSlash(s) then s else s + "/"
  }

  function JoinSegments(parts: seq<string>): string
    decreases |parts|
  {
    if parts == [] then [] else JoinSegments(parts[..|parts| - 1]) + Segment(parts[|parts| - 1])
  }

  /** The result always starts with the root path and always ends with "/". */
  lemma {:induction false} BuildUrlShape(root: string, parts: seq<string>)
    ensures root <= BuildUrl(root, parts)
    ensures EndsWithSlash(BuildUrl(root, parts))
    decreases |parts|
  {
    if parts != [] {
      BuildUrlShape(root, parts[..|parts| - 1]);
    }
  }

  /** Once the accumulated text ends in "/", one loop iteration appends the part's segment. */
  lemma AppendPartSegment(acc: string, part: string)
    requires EndsWithSlash(acc)
    ensures AppendPart(acc, part) == acc + Segment(part)
  {
    var s := StripLeadingSlash(part);
    if s == [] {
      assert acc + s == acc;
    } else {
      assert (acc + s)[|acc + s| - 1] == s[|s| - 1];
    }
  }

  /** Appending a part extends the URL by exactly that part's segment. */
  lemma BuildUrlAppend(root: string, parts: seq<string>, part: string)
    ensures BuildUrl(root, parts + [part]) == BuildUrl(root, parts) + Segment(part)
  {
    assert BuildUrl(root, parts + [part]) == AppendPart(BuildUrl(root, parts), part) by {
      assert (parts + [part])[..|parts|] == parts;
    }
    BuildUrlShape(root, parts);
    AppendPartSegment(BuildUrl(root, parts), part);
  }

  /** Independent description of the result: the root closed by a slash, followed by every
      part's segment in order. */
  lemma {:induction false} BuildUrlIsJoin(root: string, parts: seq<string>)
    ensures BuildUrl(root, parts) == WithTrailingSlash(root) + JoinSegments(parts)
    decreases |parts|
  {
    if parts != [] {
      var init, last := parts[..|parts| - 1], parts[|parts| - 1];
      assert BuildUrl(root, parts) == BuildUrl(root, init) + Segment(last) by {
        assert init + [last] == parts;
        BuildUrlAppend(root, init, last);
      }
      BuildUrlIsJoin(root, init);
      var w, j, g := WithTrailingSlash(root), JoinSegments(init), Segment(last);
      assert JoinSegments(parts) == j + g;
      ConcatAssoc(w, j, g);
    } else {
      assert WithTrailingSlash(root) + [] == WithTrailingSlash(root);
    }
  }

  /** Reassociation, kept apart from the inductive step above to keep that proof small. */
  lemma ConcatAssoc(a: string, b: string, c: string)
    ensures a + b + c == a + (b + c)
  {
  }

  /** An empty part, or a lone "/", leaves the URL unchanged. */
  lemma EmptyPartAddsNothing(root: string, parts: seq<string>, part: string)
    requires part == "" || part == "/"
    ensures BuildUrl(root, parts + [part]) == BuildUrl(root, parts)
  {
    BuildUrlAppend(root, parts, part);
    assert Segment(part) == [];
  }

  /** The repository's own example: root "https://www.trustee13.com/" with parts
      "/api/controller/", "" and "12". */
  lemma TestBuildUrlExample()
    ensures BuildUrl("https://www.trustee13.com/", ["/api/controller/", "", "12"])
         == "https://www.trustee13.com/api/controller/12/"
  {
    var root := "https://www.trustee13.com/";
    assert ["/api/controller/", "", "12"][..2] == ["/api/controller/", ""];
    assert ["/api/controller/", ""][..1] == ["/api/controller/"];
    assert ["/api/controller/"][..0] == [];
    assert BuildUrl(root, []) == root;
    assert BuildUrl(root, ["/api/controller/"]) == "https://www.trustee13.com/api/controller/";
    assert BuildUrl(root, ["/api/controller/", ""]) == "https://www.trustee13.com/api/controller/";
  }
}

/**
  `Connection`: its root path, its diagnostic log `info`, and its public
  operations. Each operation resets the log, builds its URL, and then does
  what the matching function of `Outcomes` says with the transport's answer,
  appending that function's notes to the log one `setInfo` at a time.
 */
module Connection {
  import opened Wrappers
  import opened Json
  import opened Url
  import opened Outcomes
  import opened RestObjectList

  /** The log after `resetInfo()`: emptied if present, still nil if nil. */
  function Reset(info: Option<seq<string>>): (r: Option<seq<string>>)
    ensures info.None? ==> r.None?
    ensures info.Some? ==> r == Some([])
  {
    if info.None? then None else Some([])
  }

  /** The log after `setInfo` for each note in turn. */
  function Appended(info: Option<seq<string>>, notes: seq<string>): (r: Option<seq<string>>)
    ensures notes == [] ==> r == info
    ensures notes != [] ==> r == Some(info.GetOr([]) + notes)
  {
    if notes == [] then info else Some(info.GetOr([]) + notes)
  }

  /** After an operation, the log holds exactly that operation's notes (or stays nil when it
      was nil and the operation had nothing to say). */
  lemma OperationLog(before: Option<seq<string>>, notes: seq<string>)
    ensures Appended(Reset(before), notes) == (if before.None? && notes == [] then None else Some(notes))
  {
    assert [] + notes == notes;
  }

  class Connection {
    const rootPath: string
    var info: Option<seq<string>>

    /** `init(basePath:)`; the session and cookie set-up are not modelled. */
    constructor (basePath: string)
      ensures rootPath == basePath && info.None?
    {
      rootPath := basePath;
      info := None;
    }

    /** `buildUrlString(parts:)` */
    method BuildUrlString(parts: seq<string>) returns (result: string)
      ensures result == BuildUrl(rootPath, parts)
    {
      result := rootPath + (if EndsWithSlash(rootPath) then "" else "/");
      for k := 0 to |parts|
        invariant result == BuildUrl(rootPath, parts[..k])
      {
        var s := parts[k];
        result := result + (if |s| > 0 && s[0] == '/' then s[1..] else s);
        result := result + (if EndsWithSlash(result) then "" else "/");
        assert parts[..k + 1][..k] == parts[..k];
      }
      assert parts[..|parts|] == parts;
    }

    /** `setInfo(_:)`: creates the log if nil, then appends. */
    method SetInfo(value: string)
      modifies this
      ensures info == Some(old(info).GetOr([]) + [value])
    {
      if info.None? {
        info := Some([]);
      }
      info := Some(info.value + [value]);
    }

    /** `resetInfo()` */
    method ResetInfo()
      modifies this
      ensures info == Reset(old(info))
    {
      if info.Some? {
        info := Some([]);
      }
    }

    /** The `setInfo` calls an operation makes, in order. */
    method Note(notes: seq<string>)
      modifies this
      ensures info == Appended(old(info), notes)
    {
      for k := 0 to |notes|
        invariant info == Appended(old(info), notes[..k])
      {
        ghost var prior := info;
        SetInfo(notes[k]);
        assert notes[..k + 1] == notes[..k] + [notes[k]];
        assert prior.GetOr([]) == old(info).GetOr([]) + notes[..k];
        assert old(info).GetOr([]) + notes[..k + 1] == prior.GetOr([]) + [notes[k]];
      }
      assert notes[..|notes|] == notes;
    }

    // ---- suspendable operations ----

    /** `list(path:) async`; `urlParses` is whether `URL(string:)` accepted the built string. */
    method ListAsync<T>(path: string, urlParses: bool, ex: Exchange, make: map<string, Json> -> T)
      returns (url: string, r: Option<seq<T>>)
      modifies this
      ensures url == BuildUrl(rootPath, [path])
      ensures r == Outcomes.ListAsync(urlParses, ex, make).value
      ensures info == Appended(Reset(old(info)), Outcomes.ListAsync(urlParses, ex, make).notes)
    {
      ResetInfo();
      url := BuildUrlString([path]);
      var a := Outcomes.ListAsync(urlParses, ex, make);
      Note(a.notes);
      r := a.value;
    }

    /** `get(path:id:) async` */
    method GetAsync<T>(path: string, id: Option<string>, ex: Exchange, make: map<string, Json> -> T)
      returns (url: string, r: Option<T>)
      requires ex.Returned? ==> ex.status.Some?
      modifies this
      ensures url == BuildUrl(rootPath, [path, id.GetOr("")])
      ensures r == Outcomes.GetAsync(ex, make).value
      ensures info == Appended(Reset(old(info)), Outcomes.GetAsync(ex, make).notes)
    {
      ResetInfo();
      url := BuildUrlString([path, id.GetOr("")]);
      var a := Outcomes.GetAsync(ex, make);
      Note(a.notes);
      r := a.value;
    }

    /** `post(path:model:) async -> U?`; `encoded` is whether `JSONEncoder` encoded the model. */
    method PostObjectAsync<T>(path: string, encoded: bool, ex: Exchange, make: map<string, Json> -> T)
      returns (url: string, r: Option<T>)
      requires encoded && ex.Returned? ==> ex.status.Some?
      modifies this
      ensures url == BuildUrl(rootPath, [path])
      ensures r == Outcomes.PostObjectAsync(encoded, ex, make).value
      ensures info == Appended(Reset(old(info)), Outcomes.PostObjectAsync(encoded, ex, make).notes)
    {
      ResetInfo();
      url := BuildUrlString([path]);
      var a := Outcomes.PostObjectAsync(encoded, ex, make);
      Note(a.notes);
      r := a.value;
    }

    /** `post(path:model:) async -> Bool` */
    method PostBoolAsync(path: string, encoded: bool, ex: Exchange) returns (url: string, r: bool)
      requires encoded && ex.Returned? ==> ex.status.Some?
      modifies this
      ensures url == BuildUrl(rootPath, [path])
      ensures r == Outcomes.PostBoolAsync(encoded, ex).value
      ensures info == Appended(Reset(old(info)), Outcomes.PostBoolAsync(encoded, ex).notes)
    {
      ResetInfo();
      url := BuildUrlString([path]);
      var a := Outcomes.PostBoolAsync(encoded, ex);
      Note(a.notes);
      r := a.value;
    }

    /** `put(path:id:model:) async -> U?` */
    method PutObjectAsync<T>(path: string, id: Option<string>, encoded: bool, ex: Exchange,
                             make: map<string, Json> -> T)
      returns (url: string, r: Option<T>)
      requires encoded && ex.Returned? ==> ex.status.Some?
      modifies this
      ensures url == BuildUrl(rootPath, [path, id.GetOr("")])
      ensures r == Outcomes.PutObjectAsync(encoded, ex, make).value
      ensures info == Appended(Reset(old(info)), Outcomes.PutObjectAsync(encoded, ex, make).notes)
    {
      ResetInfo();
      url := BuildUrlString([path, id.GetOr("")]);
      var a := Outcomes.PutObjectAsync(encoded, ex, make);
      Note(a.notes);
      r := a.value;
    }

    /** `put(path:id:model:) async -> Bool` */
    method PutBoolAsync(path: string, id: Option<string>, encoded: bool, ex: Exchange)
      returns (url: string, r: bool)
      requires encoded && ex.Returned? ==> ex.status.Some?
      modifies this
      ensures url == BuildUrl(rootPath, [path, id.GetOr("")])
      ensures r == Outcomes.PutBoolAsync(encoded, ex).value
      ensures info == Appended(Reset(old(info)), Outcomes.PutBoolAsync(encoded, ex).notes)
    {
      ResetInfo();
      url := BuildUrlString([path, id.GetOr("")]);
      var a := Outcomes.PutBoolAsync(encoded, ex);
      Note(a.notes);
      r := a.value;
    }

    /** `delete(path:id:) async -> Bool` */
    method DeleteBoolAsync(path: string, id: Option<string>, ex: Exchange) returns (url: string, r: bool)
      requires ex.Returned? ==> ex.status.Some?
      modifies this
      ensures url == BuildUrl(rootPath, [path, id.GetOr("")])
      ensures r == Outcomes.DeleteBoolAsync(ex).value
      ensures info == Appended(Reset(old(info)), Outcomes.DeleteBoolAsync(ex).notes)
    {
      ResetInfo();
      url := BuildUrlString([path, id.GetOr("")]);
      var a := Outcomes.DeleteBoolAsync(ex);
      Note(a.notes);
      r := a.value;
    }

    /** `delete(path:id:) async -> T?`; `empty` is `T()`. */
    method DeleteObjectAsync<T>(path: string, id: Option<string>, ex: Exchange,
                                make: map<string, Json> -> T, empty: T)
      returns (url: string, r: Option<T>)
      requires ex.Returned? ==> ex.status.Some?
      modifies this
      ensures url == BuildUrl(rootPath, [path, id.GetOr("")])
      ensures r == Outcomes.DeleteObjectAsync(ex, make, empty).value
      ensures info == Appended(Reset(old(info)), Outcomes.DeleteObjectAsync(ex, make, empty).notes)
    {
      ResetInfo();
      url := BuildUrlString([path, id.GetOr("")]);
      var a := Outcomes.DeleteObjectAsync(ex, make, empty);
      Note(a.notes);
      r := a.value;
    }

    // ---- callback operations: `calls` are the calls made to `completion`, in order ----

    /** `list(path:completion:)` */
    method ListCallback<T>(path: string, d: Delivery, make: map<string, Json> -> T)
      returns (url: string, calls: seq<Result<Option<seq<T>>, ConnectionError>>)
      modifies this
      ensures url == BuildUrl(rootPath, [path])
      ensures calls == Outcomes.ListCallback(d, make).calls
      ensures info == Appended(Reset(old(info)), Outcomes.ListCallback(d, make).notes)
    {
      ResetInfo();
      url := BuildUrlString([path]);
      var o := Outcomes.ListCallback(d, make);
      Note(o.notes);
      calls := o.calls;
    }

    /** `list(path:page:perPage:completion:)`: `page` and `perPage` are accepted and not used.
        A successful call carries a new `RESTObjectList` built from the body. */
    method ListPageCallback<T>(path: string, page: int, perPage: int, d: Delivery, make: map<string, Json> -> T)
      returns (url: string, calls: seq<Result<Option<RESTObjectList<T>>, ConnectionError>>)
      requires DeliveredWith(d, 200) && d.data.Some? && d.data.value.Parsed? && d.data.value.json.Obj? ==>
        Decodable(d.data.value.json.fields)
      modifies this
      ensures url == BuildUrl(rootPath, [path])
      ensures |calls| == |Outcomes.ListPageCallback(d).calls|
      ensures forall k :: 0 <= k < |calls| ==>
        var c := Outcomes.ListPageCallback(d).calls[k];
        && (calls[k].Failure? <==> c.Failure?)
        && (c.Failure? ==> calls[k].error == c.error)
        && (c.Success? ==> calls[k].value.Some? && c.value.Some?)
      ensures forall k :: 0 <= k < |calls| && calls[k].Success? ==>
        var m := Outcomes.ListPageCallback(d).calls[k].value.value;
        var e := calls[k].value.value;
        && fresh(e)
        && |e.list| == |ListItems(m)|
        && (forall j :: 0 <= j < |e.list| ==> e.list[j] == make(ListItems(m)[j]))
        && e.totalRecords == RequiredInt64(m, "totalRecords")
        && e.page == RequiredInt64(m, "page")
        && e.perPage == RequiredInt64(m, "perPage")
        && e.succeeded == Succeeded(m)
        && e.info == InfoOf(m)
      ensures info == Appended(Reset(old(info)), Outcomes.ListPageCallback(d).notes)
    {
      ResetInfo();
      url := BuildUrlString([path]);
      var o := Outcomes.ListPageCallback(d);
      Note(o.notes);
      if |o.calls| == 1 && o.calls[0].Success? {
        var m := o.calls[0].value.value;
        var e := new RESTObjectList<T>.FromJson(Some(m), make);
        calls := [Success(Some(e))];
      } else {
        calls := seq(|o.calls|, k requires 0 <= k < |o.calls| => Failure(o.calls[k].error));
        assert forall k :: 0 <= k < |o.calls| ==> o.calls[k].Failure?;
      }
    }

    /** `get(path:id:completion:)` */
    method GetCallback<T>(path: string, id: Option<string>, d: Delivery, make: map<string, Json> -> T)
      returns (url: string, calls: seq<Result<Option<T>, ConnectionError>>)
      modifies this
      ensures url == BuildUrl(rootPath, [path, id.GetOr("")])
      ensures calls == Outcomes.GetCallback(d, make).calls
      ensures info == Appended(Reset(old(info)), Outcomes.GetCallback(d, make).notes)
    {
      ResetInfo();
      url := BuildUrlString([path, id.GetOr("")]);
      var o := Outcomes.GetCallback(d, make);
      Note(o.notes);
      calls := o.calls;
    }

    /** `post(path:model:completion:)` returning `U?` */
    method PostObjectCallback<T>(path: string, encoded: bool, d: Delivery, make: map<string, Json> -> T)
      returns (url: string, calls: seq<Result<Option<T>, ConnectionError>>)
      requires encoded && d.error.None? ==> d.status.Some?
      modifies this
      ensures url == BuildUrl(rootPath, [path])
      ensures calls == Outcomes.PostObjectCallback(encoded, d, make).calls
      ensures info == Appended(Reset(old(info)), Outcomes.PostObjectCallback(encoded, d, make).notes)
    {
      ResetInfo();
      url := BuildUrlString([path]);
      var o := Outcomes.PostObjectCallback(encoded, d, make);
      Note(o.notes);
      calls := o.calls;
    }

    /** `post(path:model:completion:)` returning `Bool` */
    method PostBoolCallback(path: string, encoded: bool, d: Delivery)
      returns (url: string, calls: seq<Result<bool, ConnectionError>>)
      requires encoded && d.error.None? ==> d.status.Some?
      modifies this
      ensures url == BuildUrl(rootPath, [path])
      ensures calls == Outcomes.PostBoolCallback(encoded, d).calls
      ensures info == Appended(Reset(old(info)), Outcomes.PostBoolCallback(encoded, d).notes)
    {
      ResetInfo();
      url := BuildUrlString([path]);
      var o := Outcomes.PostBoolCallback(encoded, d);
      Note(o.notes);
      calls := o.calls;
    }

    /** `put(path:id:model:completion:)` returning `U?` */
    method PutObjectCallback<T>(path: string, id: Option<string>, encoded: bool, d: Delivery,
                                make: map<string, Json> -> T)
      returns (url: string, calls: seq<Result<Option<T>, ConnectionError>>)
      modifies this
      ensures url == BuildUrl(rootPath, [path, id.GetOr("")])
      ensures calls == Outcomes.PutObjectCallback(encoded, d, make).calls
      ensures info == Appended(Reset(old(info)), Outcomes.PutObjectCallback(encoded, d, make).notes)
    {
      ResetInfo();
      url := BuildUrlString([path, id.GetOr("")]);
      var o := Outcomes.PutObjectCallback(encoded, d, make);
      Note(o.notes);
      calls := o.calls;
    }

    /** `put(path:id:model:completion:)` returning `Bool` */
    method PutBoolCallback(path: string, id: Option<string>, encoded: bool, d: Delivery)
      returns (url: string, calls: seq<Result<bool, ConnectionError>>)
      modifies this
      ensures url == BuildUrl(rootPath, [path, id.GetOr("")])
      ensures calls == Outcomes.PutBoolCallback(encoded, d).calls
      ensures info == Appended(Reset(old(info)), Outcomes.PutBoolCallback(encoded, d).notes)
    {
      ResetInfo();
      url := BuildUrlString([path, id.GetOr("")]);
      var o := Outcomes.PutBoolCallback(encoded, d);
      Note(o.notes);
      calls := o.calls;
    }

    /** `delete(path:id:completion:)` returning `Bool`; the identifier is not optional here. */
    method DeleteBoolCallback(path: string, id: string, d: Delivery)
      returns (url: string, calls: seq<Result<bool, ConnectionError>>)
      modifies this
      ensures url == BuildUrl(rootPath, [path, id])
      ensures calls == Outcomes.DeleteBoolCallback(d).calls
      ensures info == Appended(Reset(old(info)), Outcomes.DeleteBoolCallback(d).notes)
    {
      ResetInfo();
      url := BuildUrlString([path, id]);
      var o := Outcomes.DeleteBoolCallback(d);
      Note(o.notes);
      calls := o.calls;
    }

    /** `delete(path:id:completion:)` returning `T?` */
    method DeleteObjectCallback<T>(path: string, id: string, d: Delivery, make: map<string, Json> -> T, empty: T)
      returns (url: string, calls: seq<Result<Option<T>, ConnectionError>>)
      modifies this
      ensures url == BuildUrl(rootPath, [path, id])
      ensures calls == Outcomes.DeleteObjectCallback(d, make, empty).calls
      ensures info == Appended(Reset(old(info)), Outcomes.DeleteObjectCallback(d, make, empty).notes)
    {
      ResetInfo();
      url := BuildUrlString([path, id]);
      var o := Outcomes.DeleteObjectCallback(d, make, empty);
      Note(o.notes);
      calls := o.calls;
    }
  }
}
