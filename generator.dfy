/**
 * Attack-case synthesis (tester/generator.py): chooses the instruction for
 * one endpoint, hands it to the generative model and extracts the list of
 * test cases from the model's free-form reply. The model, `json.dumps`,
 * `json.loads` and Python's `str()` are parameters.
 */
module Generator {
  import opened Wrappers
  import opened Text
  import opened Json
  import opened Parser

  /**
   * The collaborators the generator cannot see into: the model call
   * (`Failure` when it raises), `json.loads` (`None` on a decode error),
   * `json.dumps(_, indent=4)` and `str()`.
   */
  datatype Oracles = Oracles(
    complete: string -> Result<string, string>,
    decode: string -> Option<Json>,
    dumps: Json -> string,
    show: Json -> string)

  /** The data-changing commands the instruction forbids, in the order it names them. */
  const Forbidden: seq<string> := ["DROP TABLE", "DELETE FROM", "UPDATE", "INSERT INTO"]

  /**
   * The fixed prose of the instructions: the role and task, the allowed
   * probes, the lead-in of the prohibition, and the lead-in and closing
   * text of the body and parameter variants.
   */
  datatype Wording = Wording(
    intro: string,
    focus: string,
    prohibitionLead: string,
    bodyLead: string,
    bodyTail: string,
    paramLead: string,
    paramTail: string)

  /** The prose `AttackGenerator` sends. */
  const SourceWording: Wording := Wording(
    "Ти — етичний експерт з тестування безпеки API (пентестер)."
    + "Твоє завдання — згенерувати 5 прикладів тест-кейсів для *виявлення* вразливостей на"
    + "ендпоінті: ",
    "Сконцентруйся на не-деструктивних атаках: XSS (Cross-Site Scripting) та SQL Injection "
    + "(тільки 'read-only' та 'time-based', наприклад, `SLEEP` або `' OR 1=1`).\n",
    "**КАТЕГОРИЧНО ЗАБОРОНЕНО** генерувати деструктивні команди, що змінюють дані, такі як `",
    "Ендпоінт очікує тіло запиту у форматі JSON, що відповідає цій схемі:\n",
    "Знайди всі поля типу 'string' у схемі та згенеруй JSON-об'єкти для 'payload', "
    + "які намагаються експлуатувати XSS або не-деструктивні SQLi у цих полях.\n"
    + "Формат відповіді: JSON-список об'єктів. Кожен об'єкт: "
    + "{'description': 'Опис атаки (напр., XSS в полі title)', 'payload': {...сам JSON...}}\n",
    "Ендпоінт приймає параметри в URL: ",
    ".\n"
    + "Згенеруй рядкові значення для 'payload', "
    + "які намагаються експлуатувати не-деструктивні SQL Injection у цих параметрах.\n"
    + "Формат відповіді: JSON-список об'єктів. Кожен об'єкт: "
    + "{'description': 'Опис атаки (напр., Time-based SQLi в item_id)', 'payload': '...сам рядок для параметра...'}\n")

  /** How the instruction names the endpoint: `[VERB] path`. */
  function EndpointTag(verb: string, path: string): string {
    "[" + verb + "] " + path
  }

  /** The forbidden commands, each between backquotes, closing the prohibition sentence. */
  function CommandList(): string {
    Join(Forbidden, "`, `") + "`.\n"
  }

  /** The text every instruction starts with: role, endpoint, allowed probes, prohibition. */
  function BasePrompt(w: Wording, verb: string, path: string): string {
    w.intro + EndpointTag(verb, path) + "\n" + w.focus + w.prohibitionLead + CommandList()
  }

  /** The schema as the instruction shows it: inside a fenced `json` block. */
  function FencedSchema(schemaText: string): string {
    "```json\n" + schemaText + "\n```\n"
  }

  /** The instruction for an endpoint that takes a JSON body with the rendered schema. */
  function BodyPrompt(w: Wording, verb: string, path: string, schemaText: string): string {
    BasePrompt(w, verb, path) + w.bodyLead + FencedSchema(schemaText) + w.bodyTail
  }

  /** The instruction for an endpoint whose path parameters are rendered as `namesText`. */
  function ParamPrompt(w: Wording, verb: string, path: string, namesText: string): string {
    BasePrompt(w, verb, path) + w.paramLead + namesText + w.paramTail
  }

  /** The endpoint has a truthy request-body schema. */
  predicate HasBody(ep: Endpoint) {
    ep.requestBodySchema.Some? && Truthy(ep.requestBodySchema.value)
  }

  /** A parameter dict whose `in` is the string `path`. */
  predicate IsPathParam(p: Json) {
    Index(p, "in") == Some(JStr("path"))
  }

  /**
   * `[p.get('name') for p in params if p.get('in') == 'path']`: the names
   * of the path parameters, `None` for one without a name.
   */
  function PathParamNames(params: seq<Json>): (names: seq<Json>)
    requires forall i :: 0 <= i < |params| ==> params[i].JObj?
    ensures |names| <= |params|
    ensures names == [] <==> forall i :: 0 <= i < |params| ==> !IsPathParam(params[i])
  {
    if params == [] then []
    else
      var rest := PathParamNames(params[1..]);
      assert forall i :: 1 <= i < |params| ==> params[i] == params[1..][i - 1];
      if IsPathParam(params[0]) then [Lookup(params[0].members, "name").GetOr(JNull)] + rest
      else rest
  }

  /**
   * `_create_prompt` can run without raising: `.get` is only ever called on
   * parameter entries that are dicts, which holds when there is a body
   * schema, when the parameters are falsy, or when they are a list of dicts.
   */
  predicate PromptDefined(ep: Endpoint) {
    || HasBody(ep)
    || !Truthy(ep.parameters)
    || (ep.parameters.JArr? && forall i :: 0 <= i < |ep.parameters.items| ==> ep.parameters.items[i].JObj?)
  }

  /**
   * `_create_prompt`: the body instruction when there is a schema, else the
   * parameter instruction when some parameter lives in the path, else `None`.
   */
  function CreatePrompt(ep: Endpoint, o: Oracles, w: Wording): (r: Option<string>)
    requires PromptDefined(ep)
    ensures r.Some? ==> BasePrompt(w, ep.verb, ep.path) <= r.value
    ensures HasBody(ep) ==> r.Some?
  {
    if HasBody(ep) then Some(BodyPrompt(w, ep.verb, ep.path, o.dumps(ep.requestBodySchema.value)))
    else if Truthy(ep.parameters) then
      var names := PathParamNames(ep.parameters.items);
      if names == [] then None
      else Some(ParamPrompt(w, ep.verb, ep.path, o.show(JArr(names))))
    else None
  }

  /** Without a schema and without parameters there is nothing to attack. */
  lemma NoSurfaceNoPrompt(ep: Endpoint, o: Oracles, w: Wording)
    requires !HasBody(ep) && !Truthy(ep.parameters)
    ensures PromptDefined(ep) && CreatePrompt(ep, o, w).None?
  {
  }

  /** A schema selects the body instruction, whatever the parameters are. */
  lemma SchemaWins(ep: Endpoint, params: Json, o: Oracles, w: Wording)
    requires HasBody(ep)
    ensures PromptDefined(ep.(parameters := params))
    ensures CreatePrompt(ep.(parameters := params), o, w)
         == Some(BodyPrompt(w, ep.verb, ep.path, o.dumps(ep.requestBodySchema.value)))
  {
  }

  /** Parameters of which none lives in the path (a missing `in` included) give no instruction. */
  lemma NoPathParamNoPrompt(ep: Endpoint, o: Oracles, w: Wording)
    requires !HasBody(ep) && ep.parameters.JArr?
    requires forall i :: 0 <= i < |ep.parameters.items| ==> ep.parameters.items[i].JObj?
    requires forall i :: 0 <= i < |ep.parameters.items| ==> !IsPathParam(ep.parameters.items[i])
    ensures CreatePrompt(ep, o, w).None?
  {
  }

  /**
   * With no schema, the parameter instruction shows the rendered list of
   * the path parameters' names.
   */
  lemma PathParamsPrompt(ep: Endpoint, o: Oracles, w: Wording)
    requires !HasBody(ep) && ep.parameters.JArr?
    requires forall i :: 0 <= i < |ep.parameters.items| ==> ep.parameters.items[i].JObj?
    requires exists i :: 0 <= i < |ep.parameters.items| && IsPathParam(ep.parameters.items[i])
    ensures CreatePrompt(ep, o, w)
         == Some(ParamPrompt(w, ep.verb, ep.path, o.show(JArr(PathParamNames(ep.parameters.items)))))
  {
  }

  /** The names are taken one parameter at a time, so a split list gives the joined names. */
  lemma {:induction false} PathParamNamesAppend(a: seq<Json>, b: seq<Json>)
    requires forall i :: 0 <= i < |a| ==> a[i].JObj?
    requires forall i :: 0 <= i < |b| ==> b[i].JObj?
    ensures PathParamNames(a + b) == PathParamNames(a) + PathParamNames(b)
    decreases |a|
  {
    if a == [] {
      assert a + b == b;
    } else {
      assert (a + b)[0] == a[0];
      assert (a + b)[1..] == a[1..] + b;
      PathParamNamesAppend(a[1..], b);
    }
  }

  /** One parameter contributes its name exactly when it lives in the path. */
  lemma PathParamNamesSingle(p: Json)
    requires p.JObj?
    ensures PathParamNames([p]) == if IsPathParam(p) then [Lookup(p.members, "name").GetOr(JNull)] else []
  {
    assert [p][1..] == [];
  }

  /** The `k`-th path parameter's name is the `k`-th name, so names keep the parameters' order. */
  lemma {:induction false} PathParamNamesOrder(params: seq<Json>, i: nat)
    requires forall j :: 0 <= j < |params| ==> params[j].JObj?
    requires i < |params| && IsPathParam(params[i])
    ensures |PathParamNames(params[..i])| < |PathParamNames(params)|
    ensures PathParamNames(params)[|PathParamNames(params[..i])|] == Lookup(params[i].members, "name").GetOr(JNull)
  {
    assert params == params[..i] + ([params[i]] + params[i + 1..]);
    PathParamNamesAppend(params[..i], [params[i]] + params[i + 1..]);
    PathParamNamesAppend([params[i]], params[i + 1..]);
    PathParamNamesSingle(params[i]);
  }

  /** Every item occurs in the joined text. */
  lemma {:induction false} JoinNamesEach(items: seq<string>, sep: string, i: nat)
    requires i < |items|
    ensures IsSubstring(items[i], Join(items, sep))
    decreases |items|
  {
    if |items| == 1 {
      assert OccursAt(Join(items, sep), items[0], 0);
    } else if i == 0 {
      OccursInMiddle([], items[0], sep + Join(items[1..], sep));
      assert [] + items[0] + (sep + Join(items[1..], sep)) == Join(items, sep);
    } else {
      JoinNamesEach(items[1..], sep, i - 1);
      var k :| OccursAt(Join(items[1..], sep), items[i], k);
      OccursExtendLeft(items[0] + sep, Join(items[1..], sep), items[i], k);
    }
  }

  /** The closing list names every forbidden command. */
  lemma CommandListNamesAll()
    ensures forall c :: c in Forbidden ==> IsSubstring(c, CommandList())
  {
    forall c | c in Forbidden ensures IsSubstring(c, CommandList()) {
      var i :| 0 <= i < |Forbidden| && Forbidden[i] == c;
      JoinNamesEach(Forbidden, "`, `", i);
      var k :| OccursAt(Join(Forbidden, "`, `"), c, k);
      OccursExtendRight(Join(Forbidden, "`, `"), "`.\n", c, k);
    }
  }

  /**
   * The base text names the endpoint as `[VERB] path` and forbids every
   * data-changing command, whatever the surrounding prose.
   */
  lemma BasePromptContents(w: Wording, verb: string, path: string)
    ensures IsSubstring(EndpointTag(verb, path), BasePrompt(w, verb, path))
    ensures forall c :: c in Forbidden ==> IsSubstring(c, BasePrompt(w, verb, path))
  {
    var tag := EndpointTag(verb, path);
    var front := w.intro + tag + "\n" + w.focus + w.prohibitionLead;
    OccursInMiddle(w.intro, tag, []);
    assert w.intro + tag + [] == w.intro + tag;
    OccursExtendRight(w.intro + tag, "\n", tag, |w.intro|);
    OccursExtendRight(w.intro + tag + "\n", w.focus, tag, |w.intro|);
    OccursExtendRight(w.intro + tag + "\n" + w.focus, w.prohibitionLead, tag, |w.intro|);
    OccursExtendRight(front, CommandList(), tag, |w.intro|);
    CommandListNamesAll();
    forall c | c in Forbidden ensures IsSubstring(c, BasePrompt(w, verb, path)) {
      var k :| OccursAt(CommandList(), c, k);
      OccursExtendLeft(front, CommandList(), c, k);
    }
  }

  /** Every instruction the generator sends names the endpoint and forbids the data-changing commands. */
  lemma EveryPromptForbidsDestruction(ep: Endpoint, o: Oracles, w: Wording)
    requires PromptDefined(ep) && CreatePrompt(ep, o, w).Some?
    ensures IsSubstring(EndpointTag(ep.verb, ep.path), CreatePrompt(ep, o, w).value)
    ensures forall c :: c in Forbidden ==> IsSubstring(c, CreatePrompt(ep, o, w).value)
  {
    var base := BasePrompt(w, ep.verb, ep.path);
    var prompt := CreatePrompt(ep, o, w).value;
    BasePromptContents(w, ep.verb, ep.path);
    PrefixKeepsOccurrences(base, prompt);
  }

  lemma PrefixKeepsOccurrences(a: string, b: string)
    requires a <= b
    ensures forall n, i :: OccursAt(a, n, i) ==> OccursAt(b, n, i)
  {
    forall n, i | OccursAt(a, n, i) ensures OccursAt(b, n, i) {
      assert b[i..i + |n|] == a[i..i + |n|];
    }
  }

  /** The body instruction shows the rendered schema inside a fenced `json` block. */
  lemma BodyPromptShowsSchema(w: Wording, verb: string, path: string, schemaText: string)
    ensures IsSubstring(FencedSchema(schemaText), BodyPrompt(w, verb, path, schemaText))
  {
    OccursInMiddle(BasePrompt(w, verb, path) + w.bodyLead, FencedSchema(schemaText), w.bodyTail);
  }

  /** The parameter instruction shows the rendered names. */
  lemma ParamPromptShowsNames(w: Wording, verb: string, path: string, namesText: string)
    ensures IsSubstring(namesText, ParamPrompt(w, verb, path, namesText))
  {
    OccursInMiddle(BasePrompt(w, verb, path) + w.paramLead, namesText, w.paramTail);
  }

  const FenceOpen: string := "```json"
  const Fence: string := "```"

  /** A `"```"` after an opening `"```json"` starts at or past the end of that opening. */
  lemma FenceAfterOpen(text: string, s: int, e: int)
    requires OccursAt(text, FenceOpen, s) && OccursAt(text, Fence, e) && e > s
    ensures e >= s + |FenceOpen|
  {
    assert text[s + 3] == 'j' && text[s + 4] == 's' && text[s + 5] == 'o' && text[s + 6] == 'n' by {
      assert text[s..s + 7] == FenceOpen;
    }
    assert text[e] == '`' && text[e + 1] == '`' && text[e + 2] == '`' by {
      assert text[e..e + 3] == Fence;
    }
  }

  /**
   * The text `_parse_llm_response` decodes: what lies between the first
   * `"```json"` and the last `"```"`, when that `"```"` comes later;
   * otherwise the whole reply; stripped either way.
   */
  function FenceCandidate(text: string): string {
    var s := Find(text, FenceOpen);
    var e := RFind(text, Fence);
    if s != -1 && e != -1 && e > s then
      FenceAfterOpen(text, s, e);
      Strip(text[s + |FenceOpen|..e])
    else Strip(text)
  }

  /**
   * A reply that wraps its JSON in a fence, with prose free of backquotes
   * before and after it, yields exactly the stripped fenced text.
   */
  lemma FencedRoundTrip(pre: string, x: string, post: string)
    requires '`' !in pre && '`' !in post
    ensures FenceCandidate(pre + FenceOpen + x + Fence + post) == Strip(x)
  {
    var text := pre + FenceOpen + x + Fence + post;
    assert text == pre + FenceOpen + (x + Fence + post);
    FirstOpenAfterPlainText(pre, x + Fence + post);
    LastFenceBeforePlainText(pre + FenceOpen + x, post);
    assert text[|pre| + |FenceOpen|..|pre + FenceOpen + x|] == x;
  }

  /** Text without backquotes holds no `"```json"`, so the first one is the one after it. */
  lemma FirstOpenAfterPlainText(pre: string, rest: string)
    requires '`' !in pre
    ensures Find(pre + FenceOpen + rest, FenceOpen) == |pre|
  {
    var text := pre + FenceOpen + rest;
    OccursInMiddle(pre, FenceOpen, rest);
    forall i | 0 <= i < |pre| ensures !OccursAt(text, FenceOpen, i) {
      assert text[i] == pre[i];
      if i + 7 <= |text| {
        assert text[i..i + 7][0] == text[i];
      }
    }
  }

  /** Text without backquotes holds no `"```"`, so the last one is the one before it. */
  lemma LastFenceBeforePlainText(front: string, post: string)
    requires '`' !in post
    ensures RFind(front + Fence + post, Fence) == |front|
  {
    var text := front + Fence + post;
    OccursInMiddle(front, Fence, post);
    forall r | |front| < r ensures !OccursAt(text, Fence, r) {
      if r + 3 <= |text| {
        assert text[r + 2] == post[r - 1 - |front|];
        FenceEndsInBackquote(text, r);
      }
    }
  }

  lemma FenceEndsInBackquote(text: string, i: int)
    requires 0 <= i && i + 3 <= |text|
    ensures OccursAt(text, Fence, i) ==> text[i + 2] == '`'
  {
    assert text[i..i + 3][2] == text[i + 2];
  }

  /** A reply without `"```json"` is decoded whole, stripped. */
  lemma NoFenceFallsBack(text: string)
    requires forall i :: !OccursAt(text, FenceOpen, i)
    ensures FenceCandidate(text) == Strip(text)
  {
  }

  /**
   * A lone `"```json"` with no `"```"` after it falls back to the whole
   * reply: the last `"```"` is the one inside the opening itself.
   */
  lemma LoneOpenFallsBack(text: string)
    requires Find(text, FenceOpen) != -1
    requires forall i :: Find(text, FenceOpen) < i ==> !OccursAt(text, Fence, i)
    ensures FenceCandidate(text) == Strip(text)
  {
    var s := Find(text, FenceOpen);
    LastFenceNotAfter(text, s);
  }

  /** The last `"```"` is not before a `"```json"`, which itself begins with one. */
  lemma LastFenceNotAfter(text: string, s: int)
    requires 0 <= s && OccursAt(text, FenceOpen, s)
    requires forall i :: s < i ==> !OccursAt(text, Fence, i)
    ensures RFind(text, Fence) == s
  {
    assert OccursAt(text, Fence, s) by {
      assert text[s..s + 3] == text[s..s + 7][..3];
    }
  }

  /**
   * `_parse_llm_response`: the decoded candidate when it is a list; `[]`
   * when it is anything else or does not decode.
   */
  function ParseReply(text: string, decode: string -> Option<Json>): (r: seq<Json>)
    ensures r != [] ==> decode(FenceCandidate(text)) == Some(JArr(r))
    ensures decode(FenceCandidate(text)).None? ==> r == []
    ensures (decode(FenceCandidate(text)).Some? && !decode(FenceCandidate(text)).value.JArr?) ==> r == []
    ensures (decode(FenceCandidate(text)).Some? && decode(FenceCandidate(text)).value.JArr?) ==>
      r == decode(FenceCandidate(text)).value.items
  {
    match decode(FenceCandidate(text))
    case Some(JArr(items)) => items
    case _ => []
  }

  /**
   * `generate_test_cases_for_endpoint`: no model call when there is no
   * instruction, `[]` when the call fails, the parsed reply otherwise.
   * Whatever it returns is the decoded list of a reply of the model to
   * this endpoint's instruction.
   */
  function Generate(ep: Endpoint, o: Oracles, w: Wording): (r: seq<Json>)
    requires PromptDefined(ep)
    ensures r != [] ==>
      && CreatePrompt(ep, o, w).Some?
      && o.complete(CreatePrompt(ep, o, w).value).Success?
      && o.decode(FenceCandidate(o.complete(CreatePrompt(ep, o, w).value).value)) == Some(JArr(r))
    ensures CreatePrompt(ep, o, w).None? ==> r == []
    ensures CreatePrompt(ep, o, w).Some? && o.complete(CreatePrompt(ep, o, w).value).Failure? ==> r == []
    ensures CreatePrompt(ep, o, w).Some? && o.complete(CreatePrompt(ep, o, w).value).Success? ==>
      var reply := o.complete(CreatePrompt(ep, o, w).value).value;
      && (o.decode(FenceCandidate(reply)).Some? && o.decode(FenceCandidate(reply)).value.JArr? ==>
            r == o.decode(FenceCandidate(reply)).value.items)
      && (o.decode(FenceCandidate(reply)).None? || !o.decode(FenceCandidate(reply)).value.JArr? ==> r == [])
  {
    match CreatePrompt(ep, o, w)
    case None => []
    case Some(prompt) =>
      match o.complete(prompt)
      case Failure(_) => []
      case Success(reply) => ParseReply(reply, o.decode)
  }

  /**
   * An endpoint without an instruction yields `[]` and never reaches the
   * model: replacing the model changes nothing.
   */
  lemma NoPromptNoCall(ep: Endpoint, o: Oracles, w: Wording, other: string -> Result<string, string>)
    requires PromptDefined(ep) && CreatePrompt(ep, o, w).None?
    ensures Generate(ep, o, w) == [] && Generate(ep, o.(complete := other), w) == []
  {
    assert CreatePrompt(ep, o.(complete := other), w) == CreatePrompt(ep, o, w);
  }

  /** A failing model call yields `[]`; it is never propagated. */
  lemma ModelFailureYieldsNothing(ep: Endpoint, o: Oracles, w: Wording)
    requires PromptDefined(ep) && CreatePrompt(ep, o, w).Some?
    requires o.complete(CreatePrompt(ep, o, w).value).Failure?
    ensures Generate(ep, o, w) == []
  {
  }

  /**
   * `reply` wraps `x` in a fence, with prose free of backquotes before and
   * after it.
   */
  ghost predicate FencedReply(reply: string, x: string) {
    exists pre, post :: '`' !in pre && '`' !in post && reply == pre + FenceOpen + x + Fence + post
  }

  /** A fenced reply is parsed as its stripped fenced text. */
  lemma FencedReplyParsed(reply: string, x: string)
    requires FencedReply(reply, x)
    ensures FenceCandidate(reply) == Strip(x)
  {
    var pre, post :| '`' !in pre && '`' !in post && reply == pre + FenceOpen + x + Fence + post;
    FencedRoundTrip(pre, x, post);
  }

  /** A reply fenced as the instruction asks, decoding to a list, yields that list. */
  lemma FencedListReturned(ep: Endpoint, o: Oracles, w: Wording, x: string, items: seq<Json>)
    requires PromptDefined(ep) && CreatePrompt(ep, o, w).Some?
    requires o.complete(CreatePrompt(ep, o, w).value).Success?
    requires FencedReply(o.complete(CreatePrompt(ep, o, w).value).value, x)
    requires o.decode(Strip(x)) == Some(JArr(items))
    ensures Generate(ep, o, w) == items
  {
    FencedReplyParsed(o.complete(CreatePrompt(ep, o, w).value).value, x);
  }
}
