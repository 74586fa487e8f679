/** Inverse readings of the compiled vectors. They are not part of the
    server; they exist to show that the compiler loses nothing it should
    keep: an `add` vector determines its request (up to an empty tag list
    reading like an absent one), and an id-based vector determines its tool,
    its id and its payload (up to the whitespace a modification string
    cannot carry). */
module Decode {
  import opened Wrappers
  import opened Text
  import opened Requests
  import opened Compiler

  /** The rest of `s` after `prefix`, if `s` starts with it. */
  function StripPrefix(s: string, prefix: string): (r: Option<string>)
    ensures r.Some? <==> |prefix| <= |s| && s[..|prefix|] == prefix
    ensures r.Some? ==> s == prefix + r.value
  {
    if |prefix| <= |s| && s[..|prefix|] == prefix then Some(s[|prefix|..]) else None
  }

  /** Reads an optional `key:value` token off the front of `ts`. */
  function TakeAttribute(key: string, ts: seq<string>): (Option<string>, seq<string>) {
    if |ts| > 0 && StripPrefix(ts[0], key + ":").Some? then
      (StripPrefix(ts[0], key + ":"), ts[1..])
    else
      (None, ts)
  }

  /** Reads `+tag` tokens back into tags; fails on any other token. */
  function DecodeTags(ts: seq<string>): Option<seq<string>> {
    if |ts| == 0 then Some([])
    else match (StripPrefix(ts[0], "+"), DecodeTags(ts[1..]))
      case (Some(t), Some(rest)) => Some([t] + rest)
      case _ => None
  }

  /** Reads one optional attribute per key, in order, off the front of `ts`. */
  function TakeAttributes(keys: seq<string>, ts: seq<string>): (r: (seq<Option<string>>, seq<string>))
    ensures |r.0| == |keys|
  {
    if |keys| == 0 then ([], ts)
    else
      var (v, rest) := TakeAttribute(keys[0], ts);
      var (vs, rest') := TakeAttributes(keys[1..], rest);
      ([v] + vs, rest')
  }

  /** The optional attributes of `add_task`, in the order the handler emits them. */
  const AttributeKeys: seq<string> := ["due", "priority", "wait", "scheduled"]

  function AttributeValues(req: AddTaskRequest): seq<Option<string>> {
    [req.due, req.priority, req.wait, req.scheduled]
  }

  /** Reads an `add` vector back into the request it came from. */
  function DecodeAdd(args: seq<string>): Option<AddTaskRequest> {
    if |args| < 3 || args[0] != "add" then None
    else match StripPrefix(args[2], "project:")
      case None => None
      case Some(project) =>
        var (vs, rest) := TakeAttributes(AttributeKeys, args[3..]);
        match DecodeTags(rest)
        case None => None
        case Some(tags) =>
          Some(AddTaskRequest(args[1], project, vs[0], if tags == [] then None else Some(tags),
                              vs[1], vs[2], vs[3]))
  }

  /** The request with an empty tag list written as an absent one; both
      compile to the same vector. */
  function CanonicalTags(req: AddTaskRequest): AddTaskRequest {
    if req.tags == Some([]) then req.(tags := None) else req
  }

  /** `ts` does not start with a `key:` token. */
  predicate NotKeyed(key: string, ts: seq<string>) {
    |ts| == 0 || StripPrefix(ts[0], key + ":").None?
  }

  lemma TakeAttributeToken(key: string, v: Option<string>, rest: seq<string>)
    requires NotKeyed(key, rest)
    ensures TakeAttribute(key, AttributeToken(key, v) + rest) == (v, rest)
  {
    if v.Some? {
      var t := key + ":" + v.value;
      assert t[..|key + ":"|] == key + ":";
      assert (AttributeToken(key, v) + rest)[1..] == rest;
    } else {
      assert AttributeToken(key, v) + rest == rest;
    }
  }

  /** A token that starts with `c` carries no prefix that starts differently. */
  lemma LeadingCharRules(t: string, prefix: string, c: char)
    requires |t| > 0 && t[0] == c && |prefix| > 0 && prefix[0] != c
    ensures StripPrefix(t, prefix).None?
  {
    if |prefix| <= |t| {
      assert t[..|prefix|][0] != prefix[0];
    }
  }

  /** The tokens following an attribute slot start with a later attribute
      key's first letter or with `+`, never with the key `key`. */
  lemma AttributesThenTags(key: string, later: seq<string>, values: seq<Option<string>>,
                           tags: seq<string>)
    requires |later| == |values|
    requires |key| > 0 && key[0] != '+'
    requires forall k :: 0 <= k < |later| ==> |later[k]| > 0 && later[k][0] != key[0]
    ensures NotKeyed(key, AttributeTokensOf(later, values) + TagTokens(tags))
    decreases |later|
  {
    var ts := AttributeTokensOf(later, values) + TagTokens(tags);
    if |later| == 0 {
      assert ts == TagTokens(tags);
      if |tags| > 0 {
        LeadingCharRules(ts[0], key + ":", '+');
      }
    } else if values[0].Some? {
      assert ts[0] == later[0] + ":" + values[0].value;
      LeadingCharRules(ts[0], key + ":", later[0][0]);
    } else {
      assert ts == AttributeTokensOf(later[1..], values[1..]) + TagTokens(tags);
      AttributesThenTags(key, later[1..], values[1..], tags);
    }
  }

  /** The attribute tokens for a run of keys and optional values. */
  function AttributeTokensOf(keys: seq<string>, values: seq<Option<string>>): seq<string>
    requires |keys| == |values|
  {
    if |keys| == 0 then [] else AttributeToken(keys[0], values[0]) + AttributeTokensOf(keys[1..], values[1..])
  }

  lemma {:induction false} DecodeTagTokens(tags: seq<string>)
    ensures DecodeTags(TagTokens(tags)) == Some(tags)
    decreases |tags|
  {
    if |tags| > 0 {
      var ts := TagTokens(tags);
      DecodeTagTokens(tags[1..]);
      assert ts[1..] == TagTokens(tags[1..]);
      assert ("+" + tags[0])[..1] == "+";
      assert [tags[0]] + tags[1..] == tags;
    }
  }

  /** Keys whose first letters differ from each other and from `+`. */
  predicate DistinctLeads(keys: seq<string>) {
    && (forall i :: 0 <= i < |keys| ==> |keys[i]| > 0 && keys[i][0] != '+')
    && (forall i, j :: 0 <= i < j < |keys| ==> keys[i][0] != keys[j][0])
  }

  lemma {:induction false} TakeAttributesRoundTrip(keys: seq<string>, values: seq<Option<string>>,
                                                   tags: seq<string>)
    requires |keys| == |values| && DistinctLeads(keys)
    ensures TakeAttributes(keys, AttributeTokensOf(keys, values) + TagTokens(tags))
         == (values, TagTokens(tags))
    decreases |keys|
  {
    if |keys| > 0 {
      var rest := AttributeTokensOf(keys[1..], values[1..]) + TagTokens(tags);
      var ts := AttributeToken(keys[0], values[0]) + rest;
      assert AttributeTokensOf(keys, values) + TagTokens(tags) == ts;
      assert forall k :: 0 <= k < |keys[1..]| ==> keys[1..][k] == keys[k + 1];
      AttributesThenTags(keys[0], keys[1..], values[1..], tags);
      TakeAttributeToken(keys[0], values[0], rest);
      assert DistinctLeads(keys[1..]);
      TakeAttributesRoundTrip(keys[1..], values[1..], tags);
      assert TakeAttributes(keys, ts) == ([values[0]] + values[1..], TagTokens(tags));
      assert [values[0]] + values[1..] == values;
    } else {
      assert AttributeTokensOf(keys, values) + TagTokens(tags) == TagTokens(tags);
    }
  }

  lemma AddArgsLayout(req: AddTaskRequest)
    ensures AddArgs(req)[3..] == AttributeTokensOf(AttributeKeys, AttributeValues(req)) + TagTokens(TagList(req))
  {
    var ks := AttributeKeys;
    var vs := AttributeValues(req);
    assert AttributeTokensOf(ks[3..], vs[3..]) == AttributeToken("scheduled", req.scheduled) by {
      assert ks[3..][1..] == [];
    }
    assert AttributeTokensOf(ks[2..], vs[2..])
        == AttributeToken("wait", req.wait) + AttributeTokensOf(ks[3..], vs[3..]) by {
      assert ks[2..][1..] == ks[3..] && vs[2..][1..] == vs[3..];
    }
    assert AttributeTokensOf(ks[1..], vs[1..])
        == AttributeToken("priority", req.priority) + AttributeTokensOf(ks[2..], vs[2..]) by {
      assert ks[1..][1..] == ks[2..] && vs[1..][1..] == vs[2..];
    }
  }

  /** Round trip: decoding an `add` vector gives back the request, with an
      empty tag list read as an absent one. In particular the description
      and every attribute value survive verbatim, whitespace included. */
  lemma AddRoundTrip(req: AddTaskRequest)
    ensures DecodeAdd(AddArgs(req)) == Some(CanonicalTags(req))
  {
    var args := AddArgs(req);
    AddArgsLayout(req);
    assert ProjectToken(req.project)[..8] == "project:";
    TakeAttributesRoundTrip(AttributeKeys, AttributeValues(req), TagList(req));
    DecodeTagTokens(TagList(req));
  }

  /** Reads an id-based vector (`get`, `modify`, `done`, `delete`,
      `annotate`) back into a request. */
  function DecodeTaskCommand(args: seq<string>): Option<Request> {
    if |args| < 2 then None
    else
      var id := args[0];
      var verb := args[1];
      if verb == "information" && |args| == 2 then Some(GetTask(TaskIdRequest(id)))
      else if verb == "done" && |args| == 2 then Some(CompleteTask(TaskIdRequest(id)))
      else if verb == "delete" && |args| == 2 then Some(DeleteTask(TaskIdRequest(id)))
      else if verb == "annotate" && |args| == 3 then Some(AnnotateTask(AnnotateTaskRequest(id, args[2])))
      else if verb == "modify" then Some(ModifyTask(ModifyTaskRequest(id, JoinSpaces(args[2..]))))
      else None
  }

  /** An id-based request, the only kind `DecodeTaskCommand` reads. */
  predicate IsTaskCommand(req: Request) {
    req.GetTask? || req.ModifyTask? || req.CompleteTask? || req.DeleteTask? || req.AnnotateTask?
  }

  /** The request with its modification string reduced to its words joined
      by single spaces: what the `task` command can actually receive. */
  function NormalizeSpacing(req: Request): Request {
    match req
    case ModifyTask(m) => ModifyTask(m.(modifications := JoinSpaces(SplitWhitespace(m.modifications))))
    case _ => req
  }

  /** Round trip for the id-based tools: the vector names the tool by its
      verb, keeps the id as token 0 verbatim (never parsed or split) and the
      note as one token; a modification string comes back with its spacing
      normalized, which compiles to the very same vector. */
  lemma TaskCommandRoundTrip(req: Request)
    requires IsTaskCommand(req)
    ensures DecodeTaskCommand(Compile(req)) == Some(NormalizeSpacing(req))
    ensures Compile(NormalizeSpacing(req)) == Compile(req)
  {
    if req.ModifyTask? {
      var m := req.modifyReq;
      var words := SplitWhitespace(m.modifications);
      assert Compile(req)[2..] == words;
      SplitJoin(words);
    }
  }
}
