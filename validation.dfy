/** The input checks at the top of `handle_call` in app.py. */
module Validation {
  import opened Outcomes
  import opened Text

  /** The three fields `handle_call` reads from the JSON body with `data.get`. */
  datatype Request = Request(caller: Option<string>, callee: Option<string>, audioUrl: Option<string>)

  const MissingFieldsMessage := "Campos 'caller', 'callee' e 'audio_url' são obrigatórios."
  const InvalidUrlMessage := "O 'audio_url' deve ser um URL válido."

  /** The prefixes `audio_url.startswith` is given, in that order. */
  const UrlSchemes: seq<string> := ["http://", "https://"]

  /** Python truthiness of a string field read with `dict.get`: present and non-empty. */
  predicate Truthy(field: Option<string>) {
    field.Some? && field.value != []
  }

  /** Python's `all(fields)`. */
  function All(fields: seq<Option<string>>): (b: bool)
    ensures b <==> forall i :: 0 <= i < |fields| ==> Truthy(fields[i])
  {
    if fields == [] then true else Truthy(fields[0]) && All(fields[1..])
  }

  /** Python's `s.startswith(prefixes)` with a tuple of prefixes. */
  function StartsWithAny(s: string, prefixes: seq<string>): (b: bool)
    ensures b <==> exists i :: 0 <= i < |prefixes| && StartsWith(s, prefixes[i])
  {
    if prefixes == [] then false else StartsWith(s, prefixes[0]) || StartsWithAny(s, prefixes[1..])
  }

  /** All three fields are present and non-empty. */
  predicate FieldsPresent(req: Request) {
    Truthy(req.caller) && Truthy(req.callee) && Truthy(req.audioUrl)
  }

  /** The URL names the http or the https scheme (case-sensitively, as `startswith` does). */
  predicate WebUrl(url: string) {
    StartsWith(url, "http://") || StartsWith(url, "https://")
  }

  /** What the checks decide: go on with the three strings, or answer 400 with a message. */
  datatype Verdict = Accepted(caller: string, callee: string, audioUrl: string) | Rejected(message: string)

  /** The two checks of `handle_call`, the presence check first. */
  function Validate(req: Request): (r: Verdict)
    ensures r == Rejected(MissingFieldsMessage) <==> !FieldsPresent(req)
    ensures r == Rejected(InvalidUrlMessage) <==> FieldsPresent(req) && !WebUrl(req.audioUrl.value)
    ensures r.Accepted? <==> FieldsPresent(req) && WebUrl(req.audioUrl.value)
    ensures r.Accepted? ==> r == Accepted(req.caller.value, req.callee.value, req.audioUrl.value)
  {
    var fields := [req.caller, req.callee, req.audioUrl];
    if !All(fields) then
      Rejected(MissingFieldsMessage)
    else
      assert Truthy(fields[0]) && Truthy(fields[1]) && Truthy(fields[2]);
      var url := req.audioUrl.value;
      assert StartsWithAny(url, UrlSchemes) <==> WebUrl(url) by {
        assert UrlSchemes[0] == "http://" && UrlSchemes[1] == "https://";
      }
      if !StartsWithAny(url, UrlSchemes) then
        Rejected(InvalidUrlMessage)
      else
        Accepted(req.caller.value, req.callee.value, url)
  }
}
