/** What travels over the connection to the bot gateway: the inbound
    request event and the outbound `set_group_add_request` command. */
module Gateway {
  import opened Wrappers
  import opened Json

  /** The fields of a gateway event the program reads; `None` is a key the
      event lacks or whose value is `null`. */
  datatype Event = Event(
    postType: Option<string>,
    requestType: Option<string>,
    subType: Option<string>,
    groupId: Option<int>,
    userId: Option<int>,
    comment: Option<string>,
    flag: Option<string>)

  /** The event filter of `handle_message`: a group-join request, either
      asked for directly ("add") or through an invitation ("invite"). */
  predicate IsJoinRequest(ev: Event) {
    && ev.postType == Some("request")
    && ev.requestType == Some("group")
    && (ev.subType == Some("add") || ev.subType == Some("invite"))
  }

  /** Python's truth value of an optional identifier: `None` and 0 are false. */
  predicate IsTruthyId(x: Option<int>) {
    x.Some? && x.value != 0
  }

  /** Python's truth value of an optional string: `None` and "" are false. */
  predicate IsTruthyText(x: Option<string>) {
    x.Some? && x.value != ""
  }

  /** `all([group_id, user_id, flag, sub_type])` in `process_request`. */
  predicate HasRequiredFields(ev: Event) {
    IsTruthyId(ev.groupId) && IsTruthyId(ev.userId) && IsTruthyText(ev.flag) && IsTruthyText(ev.subType)
  }

  /** Every event the filter lets through has a usable sub-type, so the
      sub-type part of the required-field gate never fires for it. */
  lemma JoinRequestHasSubType(ev: Event)
    requires IsJoinRequest(ev)
    ensures IsTruthyText(ev.subType)
  {
  }

  const SetGroupAddRequest: string := "set_group_add_request"

  /** The parameters of one `set_group_add_request` command. */
  datatype Command = Command(flag: string, subType: string, approve: bool, reason: Option<string>) {
    /** A reason is only ever attached to a rejection, and never empty. */
    predicate Valid() {
      reason.Some? ==> !approve && reason.value != ""
    }
  }

  /** The `api_request` dictionary `handle_group_request` sends: the action
      and the parameters, into which `reason` is inserted afterwards when the
      request is rejected with a non-empty reason. */
  function BuildRequest(flag: string, subType: string, approve: bool, reason: string): (r: Value)
    ensures DecodeRequest(r) == Some(Command(flag, subType, approve, if !approve && reason != "" then Some(reason) else None))
    ensures r.JObject? && "action" in r.fields && r.fields["action"] == JStr(SetGroupAddRequest)
    ensures "params" in r.fields && r.fields["params"].JObject?
    ensures "reason" in r.fields["params"].fields <==> !approve && reason != ""
  {
    var params := map["flag" := JStr(flag), "sub_type" := JStr(subType), "approve" := JBool(approve)];
    var withReason := if !approve && reason != "" then params["reason" := JStr(reason)] else params;
    JObject(map["action" := JStr(SetGroupAddRequest), "params" := JObject(withReason)])
  }

  /** The dictionary sent for a command. */
  function Encode(c: Command): Value {
    BuildRequest(c.flag, c.subType, c.approve, c.reason.GetOr(""))
  }

  /** The reader of the dictionary `BuildRequest` makes: exactly the
      keys `action` and `params`; `params` holding `flag`, `sub_type`,
      `approve` and possibly `reason`, with the types and the constraint on
      `reason` that `handle_group_request` guarantees. Anything else is `None`. */
  function DecodeRequest(v: Value): (r: Option<Command>)
    ensures r.Some? ==> r.value.Valid()
  {
    if !v.JObject? || v.fields.Keys != {"action", "params"} || v.fields["action"] != JStr(SetGroupAddRequest) then None
    else
      var p := v.fields["params"];
      if !p.JObject? then None
      else
        var f := p.fields;
        var base := {"flag", "sub_type", "approve"};
        if !(f.Keys == base || f.Keys == base + {"reason"}) then None
        else if !f["flag"].JStr? || !f["sub_type"].JStr? || !f["approve"].JBool? then None
        else
          var c := Command(f["flag"].s, f["sub_type"].s, f["approve"].b, None);
          if "reason" !in f then Some(c)
          else if f["reason"].JStr? && !c.approve && f["reason"].s != "" then Some(c.(reason := Some(f["reason"].s)))
          else None
  }

  /** The encoding is faithful: a valid command is read back unchanged. */
  lemma DecodeEncode(c: Command)
    requires c.Valid()
    ensures DecodeRequest(Encode(c)) == Some(c)
  {
  }

  /** Every dictionary the gateway accepts is the one `handle_group_request`
      would build for the command it reads. */
  lemma EncodeDecode(v: Value)
    requires DecodeRequest(v).Some?
    ensures Encode(DecodeRequest(v).value) == v
  {
    var c := DecodeRequest(v).value;
    var f := v.fields["params"].fields;
    var e := Encode(c);
    assert e.fields["params"].fields.Keys == f.Keys;
    assert e.fields["params"].fields == f;
    assert e.fields.Keys == v.fields.Keys;
  }
}
