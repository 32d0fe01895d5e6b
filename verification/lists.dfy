/** Adding existing contacts to a list: the request names the contacts by
    e-mail, by numeric id or by external id, and the body carries at most one
    of those arrays, chosen by the precedence emails, ids, extIds. */
module Lists {
  import opened Json
  import opened Fetch

  /** One identifier field of the request object: the key is missing, the key
      is there with the value `undefined`, or the key holds a value. The
      selection tests only whether the key is there (`in`); serialising the
      body drops a key whose value is `undefined`. */
  datatype Field = Missing | Undefined | Given(value: Json)

  /** An add-contacts request, with its three identifier fields. */
  datatype AddContactsRequest = AddContactsRequest(
    id: int,
    emails: Field,
    ids: Field,
    extIds: Field)

  /** A request object that has exactly one identifier key, and a value under it. */
  predicate HasOnlyOneField(req: AddContactsRequest) {
    || (req.emails.Given? && req.ids.Missing? && req.extIds.Missing?)
    || (req.emails.Missing? && req.ids.Given? && req.extIds.Missing?)
    || (req.emails.Missing? && req.ids.Missing? && req.extIds.Given?)
  }

  /** The identifier fields in order of precedence. */
  function Candidates(req: AddContactsRequest): seq<(string, Field)> {
    [("emails", req.emails), ("ids", req.ids), ("extIds", req.extIds)]
  }

  /** The position of the first candidate whose key is there, or the length
      of the list when there is none. */
  function FirstIndex(candidates: seq<(string, Field)>): (i: nat)
    ensures i <= |candidates|
    ensures i < |candidates| ==> !candidates[i].1.Missing?
    ensures forall j :: 0 <= j < i ==> candidates[j].1.Missing?
    decreases |candidates|
  {
    if candidates == [] || !candidates[0].1.Missing? then 0
    else
      var i := FirstIndex(candidates[1..]);
      assert forall j :: 1 <= j < i + 1 ==> candidates[j] == candidates[1..][j - 1];
      i + 1
  }

  /** The body a precedence list selects: the first candidate whose key is
      there, alone, or no key at all when none is. */
  function FirstPresent(candidates: seq<(string, Field)>): (body: map<string, Field>)
    ensures |body| <= 1
    ensures body == map[] <==> forall i :: 0 <= i < |candidates| ==> candidates[i].1.Missing?
    ensures forall name :: name in body ==>
      exists i :: 0 <= i < |candidates| && candidates[i] == (name, body[name]) && !body[name].Missing?
                  && forall j :: 0 <= j < i ==> candidates[j].1.Missing?
  {
    var i := FirstIndex(candidates);
    if i < |candidates| then
      var body := map[candidates[i].0 := candidates[i].1];
      assert body.Keys == {candidates[i].0};
      body
    else map[]
  }

  /** The JSON object the body serialises to: a key whose value is `undefined`
      is left out, every other key keeps its value. */
  function Serialised(body: map<string, Field>): (obj: map<string, Json>)
    ensures obj.Keys == set name | name in body && body[name].Given?
    ensures forall name :: name in obj ==> obj[name] == body[name].value
  {
    map name | name in body && body[name].Given? :: body[name].value
  }

  /** `/contacts/lists/${id}/contacts/add`. */
  function AddContactsPath(id: int): string {
    "/contacts/lists/" + IntToDecimal(id) + "/contacts/add"
  }

  /** The POST request `addContactsToList` sends. */
  method AddContactsToList(cfg: Config, req: AddContactsRequest) returns (request: Request)
    ensures request == PrepareRequest(cfg, AddContactsPath(req.id),
                                      RequestOptions(Some("POST"), Some(JObj(Serialised(FirstPresent(Candidates(req))))), map[]))
  {
    var body: map<string, Field> := map[];
    if !req.emails.Missing? {
      body := body["emails" := req.emails];
    } else if !req.ids.Missing? {
      body := body["ids" := req.ids];
    } else if !req.extIds.Missing? {
      body := body["extIds" := req.extIds];
    }
    PrecedenceEmailsIdsExtIds(req);
    request := PrepareRequest(cfg, AddContactsPath(req.id), RequestOptions(Some("POST"), Some(JObj(Serialised(body))), map[]));
  }

  /** Emails win over ids, and ids over external ids, whatever else is there. */
  lemma PrecedenceEmailsIdsExtIds(req: AddContactsRequest)
    ensures !req.emails.Missing? ==> FirstPresent(Candidates(req)) == map["emails" := req.emails]
    ensures req.emails.Missing? && !req.ids.Missing? ==> FirstPresent(Candidates(req)) == map["ids" := req.ids]
    ensures req.emails.Missing? && req.ids.Missing? && !req.extIds.Missing? ==>
      FirstPresent(Candidates(req)) == map["extIds" := req.extIds]
    ensures req.emails.Missing? && req.ids.Missing? && req.extIds.Missing? ==> FirstPresent(Candidates(req)) == map[]
  {
    var c := Candidates(req);
    var i := FirstIndex(c);
    assert c[0] == ("emails", req.emails) && c[1] == ("ids", req.ids) && c[2] == ("extIds", req.extIds);
    if !req.emails.Missing? {
      assert i == 0;
    } else if !req.ids.Missing? {
      assert i == 1;
    } else if !req.extIds.Missing? {
      assert i == 2;
    } else {
      assert i == 3;
    }
  }

  /** A request with exactly one identifier key, holding a value, sends exactly
      that field with its value unchanged, and nothing else. */
  lemma OnlyFieldIsSent(req: AddContactsRequest)
    requires HasOnlyOneField(req)
    ensures var sent := Serialised(FirstPresent(Candidates(req)));
      && |sent| == 1
      && (req.emails.Given? ==> sent == map["emails" := req.emails.value])
      && (req.ids.Given? ==> sent == map["ids" := req.ids.value])
      && (req.extIds.Given? ==> sent == map["extIds" := req.extIds.value])
  {
    PrecedenceEmailsIdsExtIds(req);
    if req.emails.Given? {
      SerialisedSingle("emails", req.emails);
    } else if req.ids.Given? {
      SerialisedSingle("ids", req.ids);
    } else {
      SerialisedSingle("extIds", req.extIds);
    }
  }

  lemma SerialisedSingle(name: string, f: Field)
    ensures Serialised(map[name := f]) == if f.Given? then map[name := f.value] else map[]
  {
    var obj := Serialised(map[name := f]);
    assert obj.Keys == if f.Given? then {name} else {};
  }

  /** A key that is there with the value `undefined` still wins the selection
      and is then dropped from the JSON, so the body sent is `{}` even when a
      later field holds identifiers. The declared type admits this: the fields
      a variant does not use are optional and may be set to `undefined`. */
  lemma UndefinedFieldShadowsLaterFields(req: AddContactsRequest)
    requires req.emails.Undefined? || (req.emails.Missing? && req.ids.Undefined?)
    ensures Serialised(FirstPresent(Candidates(req))) == map[]
  {
    PrecedenceEmailsIdsExtIds(req);
    if req.emails.Undefined? {
      SerialisedSingle("emails", req.emails);
    } else {
      SerialisedSingle("ids", req.ids);
    }
  }
}
