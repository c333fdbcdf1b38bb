/**
  End-to-end scenarios: the repository's get-player tests against a server
  that answers 200 with Mickey Mouse or 404, and the paged envelope a paged
  list decodes.
 */
module Scenarios {
  import opened Wrappers
  import opened Json
  import opened Decimal
  import opened Url
  import opened Outcomes
  import opened RestObjectList
  import opened Player

  const MICKEY: map<string, Json> := map["playerId" := Int(1), "playerName" := Str("Mickey Mouse")]

  /** The get tests' request URL: the root, then path "/unittest/api/Players/" without its
      leading slash, then id "1" closed by a slash. */
  lemma PlayerUrl(root: string)
    requires EndsWithSlash(root)
    ensures BuildUrl(root, ["/unittest/api/Players/", "1"]) == root + "unittest/api/Players/" + "1/"
  {
    var path := "/unittest/api/Players/";
    assert BuildUrl(root, [path]) == root + "unittest/api/Players/" by {
      assert BuildUrl(root, []) == root;
      BuildUrlAppend(root, [], path);
      assert [] + [path] == [path];
      assert Segment(path) == "unittest/api/Players/";
    }
    BuildUrlAppend(root, [path], "1");
    assert [path] + ["1"] == [path, "1"];
    assert Segment("1") == "1/";
  }

  /** A 200 answer carrying Mickey Mouse decodes to player 1 named "Mickey Mouse", in both forms. */
  lemma GetPlayerFound(response: string, text: string)
    ensures var ex := Returned(Parsed(Obj(MICKEY)), Some(200), response);
      GetAsync(ex, FromMap) == Answer(Some(Player(Some(1), Some("Mickey Mouse"))), [])
    ensures var d := Delivery(None, Some(Parsed(Obj(MICKEY))), Some(200), response, text, text);
      GetCallback(d, FromMap) == Delivered([Success(Some(Player(Some(1), Some("Mickey Mouse"))))], [])
  {
    assert AsInt64(Int(1)) == Some(1 as int64);
  }

  /** Status 404 renders as "404". */
  lemma Dec404()
    ensures Dec(404) == "404"
  {
    assert Digits(4) == "4";
    assert Digits(40) == "40";
    assert Digits(404) == Digits(40) + "4";
  }

  /** A 404 answer yields nil, and the single note ends with "404". */
  lemma GetPlayerMissing(body: Payload, response: string)
    ensures var r := GetAsync(Returned(body, Some(404), response), FromMap);
      r.value.None? && r.notes == [NonTwoHundredNote(404)]
    ensures var note := NonTwoHundredNote(404);
      note[|note| - 3..] == "404"
  {
    Dec404();
    StatusNotesNameCode(404, "");
  }

  const ENVELOPE: map<string, Json> := map[
    "list" := Arr([Obj(MICKEY)]),
    "totalRecords" := Int(1), "page" := Int(0), "perPage" := Int(50),
    "succeeded" := Bool(true)]

  /** The paged envelope with one element: one decoded player, totalRecords 1, page 0, perPage 50,
      succeeded, no info; and the paged list hands exactly this object to the envelope. */
  lemma PagedEnvelope(response: string, text: string)
    ensures Decodable(ENVELOPE)
    ensures |ListItems(ENVELOPE)| == 1 && FromMap(ListItems(ENVELOPE)[0]) == Player(Some(1), Some("Mickey Mouse"))
    ensures RequiredInt64(ENVELOPE, "totalRecords") == 1
    ensures RequiredInt64(ENVELOPE, "page") == 0
    ensures RequiredInt64(ENVELOPE, "perPage") == 50
    ensures Succeeded(ENVELOPE) && InfoOf(ENVELOPE) == []
    ensures var d := Delivery(None, Some(Parsed(Obj(ENVELOPE))), Some(200), response, text, text);
      ListPageCallback(d) == Delivered([Success(Some(ENVELOPE))], [])
  {
    assert AllObjects(ENVELOPE["list"].items);
    assert AsInt64(Int(1)) == Some(1 as int64);
    assert ListItems(ENVELOPE)[0] == MICKEY;
  }
}
