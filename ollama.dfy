/** Server and model selection and the result shapes of
    backend/app/services/ollama_service.py. The HTTP calls are parameters: a
    catalog giving the model names a server lists (empty when the server
    cannot be reached, answers with an HTTP error status or sends text
    that is not JSON, as `list_models_from_server` returns), and a request
    function giving the dict
    `_make_ollama_request` returns (an `"error"` dict on failure). */
module Ollama {
  import opened Wrappers
  import opened Text
  import opened Dicts
  import opened Json

  datatype OllamaServer = OllamaServer(name: string, url: string)

  /** `self.servers`: server name to server, in configuration order. */
  type ServerMap = seq<(string, OllamaServer)>

  /** What `GET <url>/api/tags` lists, per server; a server missing from
      the map could not be reached, answered with an HTTP error status or
      sent text that is not JSON, which `list_models_from_server` turns
      into an empty list. */
  type Catalog = map<OllamaServer, seq<string>>

  function Listed(catalog: Catalog, server: OllamaServer): seq<string> {
    if server in catalog then catalog[server] else []
  }

  /** `POST <url>/api/generate` with a payload: the reply dict. */
  type Request = (string, Members) -> Members

  /** One entry of `list_models`: the server that listed the model, and
      the model's name. */
  datatype ListedModel = ListedModel(server: OllamaServer, modelName: string)

  /** `{server.name: server for server in servers}`: a repeated name keeps
      its first position and its last server. */
  function ServerMapOf(servers: seq<OllamaServer>): (m: ServerMap)
    ensures forall i :: 0 <= i < |m| ==> m[i].1.name == m[i].0
    ensures |servers| == 0 <==> |m| == 0
    decreases |servers|
  {
    if |servers| == 0 then []
    else
      var s := servers[|servers| - 1];
      var m := ServerMapOf(servers[..|servers| - 1]);
      NamedPut(m, s);
      Put(m, s.name, s)
  }

  lemma {:induction false} NamedPut(m: ServerMap, s: OllamaServer)
    requires forall i :: 0 <= i < |m| ==> m[i].1.name == m[i].0
    ensures var r := Put(m, s.name, s);
      |r| > 0 && forall i :: 0 <= i < |r| ==> r[i].1.name == r[i].0
  {
    if |m| > 0 && m[0].0 != s.name {
      NamedPut(m[1..], s);
      var r := Put(m, s.name, s);
      assert r == [m[0]] + Put(m[1..], s.name, s);
      forall i | 0 <= i < |r|
        ensures r[i].1.name == r[i].0
      {
        if i > 0 {
          assert r[i] == Put(m[1..], s.name, s)[i - 1];
        }
      }
    }
  }

  /** `get_default_server`: the first configured server, if any. */
  function DefaultServer(m: ServerMap): (r: Option<OllamaServer>)
    ensures r.None? <==> |m| == 0
    ensures r.Some? ==> r.value == m[0].1
  {
    if |m| == 0 then None else Some(m[0].1)
  }

  /** The models one server lists, tagged with the server. */
  function ModelsOf(server: OllamaServer, catalog: Catalog): (r: seq<ListedModel>)
    ensures |r| == |Listed(catalog, server)|
    ensures forall i :: 0 <= i < |r| ==> r[i] == ListedModel(server, Listed(catalog, server)[i])
  {
    var names := Listed(catalog, server);
    seq(|names|, i requires 0 <= i < |names| => ListedModel(server, names[i]))
  }

  /** `list_models`: every server's models, server by server. */
  function AllModels(m: ServerMap, catalog: Catalog): (r: seq<ListedModel>)
    ensures forall e :: e in r ==> exists i :: 0 <= i < |m| && e.server == m[i].1 && e.modelName in Listed(catalog, m[i].1)
  {
    if |m| == 0 then []
    else
      var rest := AllModels(m[1..], catalog);
      assert forall e :: e in rest ==> exists i :: 0 <= i < |m| && e.server == m[i].1 && e.modelName in Listed(catalog, m[i].1) by {
        forall e | e in rest
          ensures exists i :: 0 <= i < |m| && e.server == m[i].1 && e.modelName in Listed(catalog, m[i].1)
        {
          var i :| 0 <= i < |m[1..]| && e.server == m[1..][i].1 && e.modelName in Listed(catalog, m[1..][i].1);
          assert m[1..][i] == m[i + 1];
        }
      }
      var own := ModelsOf(m[0].1, catalog);
      assert forall e :: e in own ==> e.server == m[0].1 && e.modelName in Listed(catalog, m[0].1);
      own + rest
  }

  /** The first listed entry with the model name. */
  function FindListed(listed: seq<ListedModel>, name: string): (r: Option<ListedModel>)
    ensures r.Some? ==> r.value in listed && r.value.modelName == name
    ensures r.None? <==> forall i :: 0 <= i < |listed| ==> listed[i].modelName != name
  {
    if |listed| == 0 then None
    else if listed[0].modelName == name then Some(listed[0])
    else
      var r := FindListed(listed[1..], name);
      assert forall i :: 1 <= i < |listed| ==> listed[i] == listed[1..][i - 1];
      r
  }

  /** The position of the first `c` in `s`. */
  function FirstIndex(s: string, c: char): (k: nat)
    requires c in s
    ensures k < |s| && s[k] == c && c !in s[..k]
  {
    if s[0] == c then 0
    else
      assert c in s[1..] by {
        var j :| 0 <= j < |s| && s[j] == c;
        assert s[1..][j - 1] == c;
      }
      var k := FirstIndex(s[1..], c);
      assert s[..k + 1] == [s[0]] + s[1..][..k];
      k + 1
  }

  /** `s.split(c, 1)` for a string containing `c`. */
  function SplitOnce(s: string, c: char): (r: (string, string))
    requires c in s
    ensures r.0 + [c] + r.1 == s && c !in r.0
  {
    var k := FirstIndex(s, c);
    assert s == s[..k] + [c] + s[k + 1..];
    (s[..k], s[k + 1..])
  }

  /** The model name once a `server/model` prefix naming an unknown
      server is dropped. */
  function Unqualified(m: ServerMap, name: Option<string>): Option<string> {
    if name.Some? && name.value != "" && '/' in name.value && Lookup(m, SplitOnce(name.value, '/').0).None?
    then Some(SplitOnce(name.value, '/').1)
    else name
  }

  /** `_get_target_model_and_server`. A qualified name naming a known
      server picks it; otherwise the name (its part after `/`) is looked
      up in every server's listing, the first server listing it winning;
      failing that, the default server's first listed model. Looking the
      listing server up again by its name gives the listing server itself,
      since each server is stored under its own name. */
  function Target(m: ServerMap, name: Option<string>, catalog: Catalog): (r: Result<(OllamaServer, string)>)
    ensures |m| == 0 ==> r.Raise? && r.exc.kind == ValueError
  {
    if |m| == 0 then Raise(Exc(ValueError, "No Ollama servers are configured in the settings."))
    else if name.Some? && name.value != "" && '/' in name.value && Lookup(m, SplitOnce(name.value, '/').0).Some? then
      var (nick, model) := SplitOnce(name.value, '/');
      Ok((Lookup(m, nick).value, model))
    else
      var wanted := Unqualified(m, name);
      var hit := if wanted.Some? && wanted.value != "" then FindListed(AllModels(m, catalog), wanted.value) else None;
      if hit.Some? then Ok((hit.value.server, wanted.value))
      else
        var server := DefaultServer(m);
        if server.None? then Raise(Exc(ValueError, "Could not determine a default Ollama server."))
        else if |Listed(catalog, server.value)| == 0 then
          Raise(Exc(ValueError, "No models available on default server '" + server.value.name + "'."))
        else Ok((server.value, Listed(catalog, server.value)[0]))
  }

  /** The selection rules: a known server prefix is taken without listing
      any models; a found model runs on a server that lists it; otherwise
      the default server's first model, or a ValueError when it lists
      none. */
  lemma TargetCases(m: ServerMap, name: Option<string>, catalog: Catalog, catalog': Catalog)
    ensures name.Some? && '/' in name.value && Lookup(m, SplitOnce(name.value, '/').0).Some? ==>
      Target(m, name, catalog) == Ok((Lookup(m, SplitOnce(name.value, '/').0).value, SplitOnce(name.value, '/').1))
      && Target(m, name, catalog) == Target(m, name, catalog')
    ensures |m| > 0 && Target(m, name, catalog).Ok? ==>
      var (server, model) := Target(m, name, catalog).value;
      (exists i :: 0 <= i < |m| && m[i].1 == server)
    ensures |m| > 0 && (name.None? || name.value == "") ==>
      Target(m, name, catalog) ==
        (if |Listed(catalog, m[0].1)| == 0
         then Raise(Exc(ValueError, "No models available on default server '" + m[0].1.name + "'."))
         else Ok((m[0].1, Listed(catalog, m[0].1)[0])))
  {
    if |m| > 0 && Target(m, name, catalog).Ok? {
      var (server, model) := Target(m, name, catalog).value;
      if name.Some? && name.value != "" && '/' in name.value && Lookup(m, SplitOnce(name.value, '/').0).Some? {
        LookupIn(m, SplitOnce(name.value, '/').0);
      } else {
        var wanted := Unqualified(m, name);
        var hit := if wanted.Some? && wanted.value != "" then FindListed(AllModels(m, catalog), wanted.value) else None;
        if hit.Some? {
          assert hit.value in AllModels(m, catalog);
        }
      }
    }
  }

  /** A found key's value is one of the stored values. */
  lemma {:induction false} LookupIn(m: ServerMap, k: string)
    requires Lookup(m, k).Some?
    ensures exists i :: 0 <= i < |m| && m[i].1 == Lookup(m, k).value
  {
    if m[0].0 != k {
      LookupIn(m[1..], k);
      var i :| 0 <= i < |m[1..]| && m[1..][i].1 == Lookup(m[1..], k).value;
      assert m[i + 1] == m[1..][i];
    }
  }

  /** An unknown server prefix is dropped and the rest is searched for:
      the model is run on the first server listing it. */
  lemma UnknownServerPrefix(m: ServerMap, name: string, catalog: Catalog)
    requires |m| > 0 && '/' in name && Lookup(m, SplitOnce(name, '/').0).None?
    requires SplitOnce(name, '/').1 != ""
    requires FindListed(AllModels(m, catalog), SplitOnce(name, '/').1).Some?
    ensures var model := SplitOnce(name, '/').1;
      Target(m, Some(name), catalog) == Ok((FindListed(AllModels(m, catalog), model).value.server, model))
      && model in Listed(catalog, FindListed(AllModels(m, catalog), model).value.server)
  {
    var model := SplitOnce(name, '/').1;
    var hit := FindListed(AllModels(m, catalog), model);
    assert Unqualified(m, Some(name)) == Some(model);
    assert hit.value in AllModels(m, catalog);
  }

  // ---------------------------------------------------------------------
  // The service

  class OllamaService {
    const servers: ServerMap

    constructor (configured: seq<OllamaServer>)
      ensures servers == ServerMapOf(configured)
    {
      servers := ServerMapOf(configured);
    }

    /** `list_models`: extends the result with each server's models. */
    method ListModels(catalog: Catalog) returns (all: seq<ListedModel>)
      ensures all == AllModels(servers, catalog)
    {
      all := [];
      var i := 0;
      while i < |servers|
        invariant 0 <= i <= |servers|
        invariant all + AllModels(servers[i..], catalog) == AllModels(servers, catalog)
      {
        assert servers[i..][0] == servers[i] && servers[i..][1..] == servers[i + 1..];
        all := all + ModelsOf(servers[i].1, catalog);
        i := i + 1;
      }
      assert servers[i..] == [];
      assert all + [] == all;
    }
  }

  /** The payload of a plain generation request. */
  function GeneratePayload(model: string, prompt: string): Members {
    [("model", JStr(model)), ("prompt", JStr(prompt)), ("stream", JBool(false))]
  }

  /** The payload of a JSON generation request. */
  function GenerateJsonPayload(model: string, prompt: string): Members {
    [("model", JStr(model)), ("prompt", JStr(prompt)), ("format", JStr("json")), ("stream", JBool(false))]
  }

  /** `generate`: an error reply is passed through; otherwise the stripped
      response text and the model used. */
  function Generate(m: ServerMap, prompt: string, name: Option<string>, catalog: Catalog, request: Request): (r: Result<Members>)
    ensures Target(m, name, catalog).Raise? ==> r == Raise(Target(m, name, catalog).exc)
  {
    var (server, model) :- Target(m, name, catalog);
    PlainAnswer(request(server.url, GeneratePayload(model, prompt)), model)
  }

  /** What `generate` makes of the server's reply. */
  function PlainAnswer(reply: Members, model: string): Result<Members> {
    if Lookup(reply, "error").Some? then Ok(reply)
    else
      var text := Lookup(reply, "response").GetOr(JStr(""));
      if !text.JStr? then Raise(Exc(AttributeError, "'" + TypeName(text) + "' object has no attribute 'strip'"))
      else Ok([("response", JStr(Strip(text.s))), ("model_used", JStr(model))])
  }

  const InvalidJsonMessage := "Ollama returned an invalid JSON string that could not be parsed."

  /** `generate_json`: an error reply is passed through; otherwise the
      response text (default `"{}"`) parsed, or an error dict when it does
      not parse. */
  function GenerateJson(m: ServerMap, prompt: string, name: Option<string>, catalog: Catalog, request: Request): (r: Result<Json>)
    ensures Target(m, name, catalog).Raise? ==> r == Raise(Target(m, name, catalog).exc)
  {
    var (server, model) :- Target(m, name, catalog);
    JsonAnswer(request(server.url, GenerateJsonPayload(model, prompt)))
  }

  /** What `generate_json` makes of the server's reply. */
  function JsonAnswer(reply: Members): Result<Json> {
    if Lookup(reply, "error").Some? then Ok(JObj(reply))
    else
      var text := Lookup(reply, "response").GetOr(JStr("{}"));
      if !text.JStr? then
        Raise(Exc(TypeError, "the JSON object must be str, bytes or bytearray, not " + TypeName(text)))
      else
        var parsed := Decode(text.s);
        if parsed.None? then Ok(JObj([("error", JStr(InvalidJsonMessage))])) else Ok(parsed.value)
  }

  /** `generate` once a target is chosen: an error reply comes back
      unchanged; otherwise the reply's `"response"` text (`""` when
      absent), stripped, with the model used, and a stripped answer
      neither starts nor ends with whitespace; a response that is not a
      string cannot be stripped and raises AttributeError. */
  lemma GenerateResults(m: ServerMap, prompt: string, name: Option<string>, catalog: Catalog, request: Request)
    requires Target(m, name, catalog).Ok?
    ensures var (server, model) := Target(m, name, catalog).value;
      var reply := request(server.url, GeneratePayload(model, prompt));
      var text := Lookup(reply, "response").GetOr(JStr(""));
      var r := Generate(m, prompt, name, catalog, request);
      && (Lookup(reply, "error").Some? ==> r == Ok(reply))
      && (Lookup(reply, "error").None? && text.JStr? ==>
            r == Ok([("response", JStr(Strip(text.s))), ("model_used", JStr(model))])
            && Strip(Strip(text.s)) == Strip(text.s))
      && (Lookup(reply, "error").None? && !text.JStr? ==> r.Raise? && r.exc.kind == AttributeError)
  {
    var (server, model) := Target(m, name, catalog).value;
    var reply := request(server.url, GeneratePayload(model, prompt));
    var text := Lookup(reply, "response").GetOr(JStr(""));
    assert Generate(m, prompt, name, catalog, request) == PlainAnswer(reply, model);
    if text.JStr? {
      StripIdempotent(text.s);
    }
  }

  /** `generate_json` once a target is chosen: an error reply comes back
      unchanged as a dict; otherwise the `"response"` text (`"{}"` when
      absent, so the empty dict) is parsed, and a text that does not parse
      becomes the invalid-JSON error dict; a response that is not a string
      raises TypeError, which the handler for decoding errors does not
      catch. */
  lemma GenerateJsonResults(m: ServerMap, prompt: string, name: Option<string>, catalog: Catalog, request: Request)
    requires Target(m, name, catalog).Ok?
    ensures var (server, model) := Target(m, name, catalog).value;
      var reply := request(server.url, GenerateJsonPayload(model, prompt));
      var text := Lookup(reply, "response");
      var r := GenerateJson(m, prompt, name, catalog, request);
      && (Lookup(reply, "error").Some? ==> r == Ok(JObj(reply)))
      && (Lookup(reply, "error").None? && text.None? ==> r == Ok(JObj([])))
      && (Lookup(reply, "error").None? && text.Some? && text.value.JStr? ==>
            r == (if Decode(text.value.s).Some? then Ok(Decode(text.value.s).value)
                  else Ok(JObj([("error", JStr(InvalidJsonMessage))]))))
      && (Lookup(reply, "error").None? && text.Some? && !text.value.JStr? ==> r.Raise? && r.exc.kind == TypeError)
  {
    var (server, model) := Target(m, name, catalog).value;
    var reply := request(server.url, GenerateJsonPayload(model, prompt));
    assert GenerateJson(m, prompt, name, catalog, request) == JsonAnswer(reply);
    JsonAnswerCases(reply);
  }

  /** The reply cases of `generate_json`, on the reply alone. */
  lemma JsonAnswerCases(reply: Members)
    ensures var text := Lookup(reply, "response");
      && (Lookup(reply, "error").Some? ==> JsonAnswer(reply) == Ok(JObj(reply)))
      && (Lookup(reply, "error").None? && text.None? ==> JsonAnswer(reply) == Ok(JObj([])))
      && (Lookup(reply, "error").None? && text.Some? && text.value.JStr? ==>
            JsonAnswer(reply) == (if Decode(text.value.s).Some? then Ok(Decode(text.value.s).value)
                                  else Ok(JObj([("error", JStr(InvalidJsonMessage))]))))
      && (Lookup(reply, "error").None? && text.Some? && !text.value.JStr? ==>
            JsonAnswer(reply).Raise? && JsonAnswer(reply).exc.kind == TypeError)
  {
    if Lookup(reply, "error").None? && Lookup(reply, "response").None? {
      EmptyObjectDecodes();
    }
  }

  /** The default response text `"{}"` parses as the empty dict. */
  lemma EmptyObjectDecodes()
    ensures Decode("{}") == Some(JObj([]))
  {
    DecodePrint(JObj([]));
    assert Print(JObj([])) == "{}";
  }

  /** A model that answers with the JSON text of a value (keys unique)
      gets that value back from `generate_json`: `loads` undoes `dumps`. */
  lemma GenerateJsonRoundTrip(m: ServerMap, prompt: string, name: Option<string>, catalog: Catalog,
                              request: Request, j: Json)
    requires Target(m, name, catalog).Ok? && WellFormed(j)
    requires var (server, model) := Target(m, name, catalog).value;
      var reply := request(server.url, GenerateJsonPayload(model, prompt));
      Lookup(reply, "error").None? && Lookup(reply, "response") == Some(JStr(Print(j)))
    ensures GenerateJson(m, prompt, name, catalog, request) == Ok(j)
  {
    var (server, model) := Target(m, name, catalog).value;
    assert GenerateJson(m, prompt, name, catalog, request)
        == JsonAnswer(request(server.url, GenerateJsonPayload(model, prompt)));
    DecodePrint(j);
  }
}
