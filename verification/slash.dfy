/**
 * The slash package: response constructors and the decoding of a
 * form-encoded slash-command body into a CommandRequest.
 */
module Slash {
  import opened Payload

  /** A reply visible only to the invoking user. */
  function NewCommandResponse(text: string): (r: CommandResponse)
    ensures r.responseType == Ephemeral
    ensures r.text == text
    ensures r.attachments == []
  {
    CommandResponse(Ephemeral, text, [])
  }

  /** A reply visible to the whole channel. */
  function NewInChannelCommandResponse(text: string): (r: CommandResponse)
    ensures r.responseType == InChannel
    ensures r.text == text
    ensures r.attachments == []
  {
    CommandResponse(InChannel, text, [])
  }

  /** Appends one attachment at the end; the earlier ones, the type and the text are kept. */
  function AddAttachment(cr: CommandResponse, a: Attachment): (r: CommandResponse)
    ensures |r.attachments| == |cr.attachments| + 1
    ensures r.attachments[..|cr.attachments|] == cr.attachments
    ensures r.attachments[|cr.attachments|] == a
    ensures r.responseType == cr.responseType && r.text == cr.text
  {
    cr.(attachments := cr.attachments + [a])
  }

  /** Parsed form values, as Go's url.Values: each key holds a list of values. */
  type Form = map<string, seq<string>>

  /** The outcome of `Request.ParseForm`, which the model takes as given. */
  datatype FormParse = Parsed(form: Form) | Malformed(reason: string)

  /** `url.Values.Get`: the first value of the key, or "" when there is none. */
  function Get(form: Form, key: string): (v: string)
    ensures key !in form || form[key] == [] ==> v == ""
    ensures key in form && form[key] != [] ==> v == form[key][0]
  {
    if key in form && |form[key]| > 0 then form[key][0] else ""
  }

  const FieldCount: nat := 13

  /** The form key of each request field, in declaration order. */
  const Keys: seq<string> := [
    "token", "team_id", "team_domain", "enterprise_id", "enterprise_name",
    "channel_id", "channel_name", "user_id", "user_name", "command",
    "text", "response_url", "trigger_id"]

  /** The i-th field of a request, in declaration order. */
  function FieldAt(req: CommandRequest, i: nat): string
    requires i < FieldCount
  {
    if i == 0 then req.token
    else if i == 1 then req.teamId
    else if i == 2 then req.teamDomain
    else if i == 3 then req.enterpriseId
    else if i == 4 then req.enterpriseName
    else if i == 5 then req.channelId
    else if i == 6 then req.channelName
    else if i == 7 then req.userId
    else if i == 8 then req.userName
    else if i == 9 then req.command
    else if i == 10 then req.text
    else if i == 11 then req.responseUrl
    else req.triggerId
  }

  /**
   * Decodes a request: a parse failure gives the zero request and the error;
   * otherwise every field is the value of its own form key, "" when absent.
   */
  function NewCommandRequest(p: FormParse): (r: (CommandRequest, Error))
    ensures p.Malformed? ==> r.0 == ZeroRequest && r.1 == Failure(p.reason)
    ensures p.Parsed? ==> r.1 == Nil
    ensures p.Parsed? ==> forall i :: 0 <= i < FieldCount ==> FieldAt(r.0, i) == Get(p.form, Keys[i])
  {
    match p
    case Malformed(reason) => (ZeroRequest, Failure(reason))
    case Parsed(form) =>
      (CommandRequest(
         Get(form, "token"),
         Get(form, "team_id"),
         Get(form, "team_domain"),
         Get(form, "enterprise_id"),
         Get(form, "enterprise_name"),
         Get(form, "channel_id"),
         Get(form, "channel_name"),
         Get(form, "user_id"),
         Get(form, "user_name"),
         Get(form, "command"),
         Get(form, "text"),
         Get(form, "response_url"),
         Get(form, "trigger_id")),
       Nil)
  }

  /** The 13 form keys are pairwise distinct. */
  lemma KeysDistinct()
    ensures |Keys| == FieldCount
    ensures forall i, j :: 0 <= i < j < FieldCount ==> Keys[i] != Keys[j]
  {
  }

  /** Two requests that agree on every field are the same request. */
  lemma FieldsDetermineRequest(a: CommandRequest, b: CommandRequest)
    requires forall i :: 0 <= i < FieldCount ==> FieldAt(a, i) == FieldAt(b, i)
    ensures a == b
  {
    assert FieldAt(a, 0) == FieldAt(b, 0) && FieldAt(a, 1) == FieldAt(b, 1);
    assert FieldAt(a, 2) == FieldAt(b, 2) && FieldAt(a, 3) == FieldAt(b, 3);
    assert FieldAt(a, 4) == FieldAt(b, 4) && FieldAt(a, 5) == FieldAt(b, 5);
    assert FieldAt(a, 6) == FieldAt(b, 6) && FieldAt(a, 7) == FieldAt(b, 7);
    assert FieldAt(a, 8) == FieldAt(b, 8) && FieldAt(a, 9) == FieldAt(b, 9);
    assert FieldAt(a, 10) == FieldAt(b, 10) && FieldAt(a, 11) == FieldAt(b, 11);
    assert FieldAt(a, 12) == FieldAt(b, 12);
  }

  /** The form a client would send for `req`: one value per key. */
  function ToForm(req: CommandRequest): Form {
    map[
      "token" := [req.token], "team_id" := [req.teamId],
      "team_domain" := [req.teamDomain], "enterprise_id" := [req.enterpriseId],
      "enterprise_name" := [req.enterpriseName], "channel_id" := [req.channelId],
      "channel_name" := [req.channelName], "user_id" := [req.userId],
      "user_name" := [req.userName], "command" := [req.command],
      "text" := [req.text], "response_url" := [req.responseUrl],
      "trigger_id" := [req.triggerId]]
  }

  /** Decoding the form of a request gives back that request: no two fields share a key. */
  lemma DecodeToFormRoundTrip(req: CommandRequest)
    ensures NewCommandRequest(Parsed(ToForm(req))) == (req, Nil)
  {
    var r := NewCommandRequest(Parsed(ToForm(req)));
    forall i | 0 <= i < FieldCount
      ensures FieldAt(r.0, i) == FieldAt(req, i)
    {
      assert Keys[i] in ToForm(req) && ToForm(req)[Keys[i]] == [FieldAt(req, i)];
    }
    FieldsDetermineRequest(r.0, req);
  }

  /** Changing the values of one key changes at most the field that key fills. */
  lemma UpdateTouchesOneField(form: Form, i: nat, values: seq<string>)
    requires i < FieldCount
    ensures var before := NewCommandRequest(Parsed(form)).0;
            var after := NewCommandRequest(Parsed(form[Keys[i] := values])).0;
            && FieldAt(after, i) == Get(map[Keys[i] := values], Keys[i])
            && forall j :: 0 <= j < FieldCount && j != i ==> FieldAt(after, j) == FieldAt(before, j)
  {
    KeysDistinct();
  }
}
