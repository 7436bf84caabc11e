/** The access URL returned by the create handler, as written and as meant. */
module AccessUrls {
  import opened Optional
  import opened AppConfig
  import opened Pastes
  import Validation

  /** The URL as the create handler builds it: `${Config.BASE_URL}/p/${id}`. */
  function AccessUrlAsWritten(env: map<string, string>, id: string): string {
    Interpolate(Setting(env, "BASE_URL")) + "/p/" + id
  }

  /** Whatever the environment holds, the URL as written begins with the
      word "undefined": the configuration object has no `BASE_URL`. */
  lemma AccessUrlIgnoresEnvironment(env: map<string, string>, id: string)
    ensures AccessUrlAsWritten(env, id) == "undefined/p/" + id
  {
    assert "BASE_URL" !in ConfiguredKeys;
  }

  /** A deployment that does set `BASE_URL` still gets a URL that is not
      under its base URL. */
  lemma AccessUrlAsWrittenMissesBase()
    ensures var env := map["BASE_URL" := "https://paste.example"];
            AccessUrlAsWritten(env, "abc12345") != AccessUrl(env["BASE_URL"], "abc12345")
  {
    var env := map["BASE_URL" := "https://paste.example"];
    AccessUrlIgnoresEnvironment(env, "abc12345");
    assert AccessUrlAsWritten(env, "abc12345")[0] == 'u';
    assert AccessUrl(env["BASE_URL"], "abc12345")[0] == 'h';
  }

  /** The create handler as written is the modelled handler given the base
      URL the code interpolates: every accepted request is answered with
      "undefined/p/" + id. */
  lemma CreateAsWrittenAnswersUndefinedUrl(s: Store, body: Validation.CreateRequest, id: string,
                                           now: int, env: map<string, string>)
    requires Validation.ValidateCreate(body).None?
    ensures var r := CreateOutcome(s, body, id, now, Interpolate(Setting(env, "BASE_URL"))).0;
            r.Created? && r.url == AccessUrlAsWritten(env, id) && r.url == "undefined/p/" + id
  {
    AccessUrlIgnoresEnvironment(env, id);
  }

  /** The identifier the render route `/p/:id` reads from a path: a
      non-empty segment after `/p/`. */
  function RenderRouteId(path: string): Option<string> {
    if |path| > 3 && path[..3] == "/p/" && '/' !in path[3..] then Some(path[3..]) else None
  }

  /** The corrected URL lies under the base URL, and its path routes the
      render handler to the paste just created. */
  lemma AccessUrlRoutesToPaste(baseUrl: string, id: string)
    requires id != [] && '/' !in id
    ensures |AccessUrl(baseUrl, id)| >= |baseUrl|
    ensures AccessUrl(baseUrl, id)[..|baseUrl|] == baseUrl
    ensures RenderRouteId(AccessUrl(baseUrl, id)[|baseUrl|..]) == Some(id)
  {
    var path := AccessUrl(baseUrl, id)[|baseUrl|..];
    assert path == "/p/" + id;
    assert path[3..] == id;
  }
}
