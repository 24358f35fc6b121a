/**
 * The client's API module: the base URL, the cached session token, the
 * headers and error handling of every request, the PDF URL and the upload form.
 */
module Api {
  import opened Wrappers
  import opened JsText

  const TokenKey := "sv_token"

  /** `storage.getItem(key)`: the stored text, or None (`null`) when the key is absent. */
  function Lookup(storage: map<string, string>, key: string): Option<string> {
    if key in storage then Some(storage[key]) else None
  }

  // ---------------------------------------------------------------------------
  // API_BASE

  /** `.replace(/\/api\/?$/, '')`: the pattern can only match as a suffix, `/api/` or `/api`. */
  function StripApiSuffix(s: string): (r: string)
    ensures EndsWith(s, "/api/") ==> r == s[..|s| - 5]
    ensures EndsWith(s, "/api") ==> r == s[..|s| - 4]
    ensures !EndsWith(s, "/api/") && !EndsWith(s, "/api") ==> r == s
  {
    if EndsWith(s, "/api/") then
      assert s[|s| - 1] == "/api/"[4] != "/api"[3];
      s[..|s| - 5]
    else if EndsWith(s, "/api") then s[..|s| - 4]
    else s
  }

  /** `.replace(/\/$/, '')` */
  function StripSlash(s: string): (r: string)
    ensures EndsWith(s, "/") ==> r + "/" == s
    ensures !EndsWith(s, "/") ==> r == s
  {
    if EndsWith(s, "/") then s[..|s| - 1] else s
  }

  /** `API_BASE` for the configured `VITE_API_URL` (None when unset). */
  function ApiBase(env: Option<string>): (base: string)
    ensures EndsWith(base, "/api")
  {
    var url := if Truthy(env) then env.value else "";
    StripSlash(StripApiSuffix(url)) + "/api"
  }

  /** A character that `s` ends with. */
  lemma LastChar(s: string, suffix: string)
    requires EndsWith(s, suffix) && suffix != []
    ensures s[|s| - 1] == suffix[|suffix| - 1]
  {
    assert s[|s| - 1] == s[|s| - |suffix|..][|suffix| - 1];
  }

  /** A suffix of `p + "/"` that ends in `/` is a suffix of `p` extended by that slash. */
  lemma DropLastSlash(p: string, suffix: string)
    ensures EndsWith(p + "/", suffix + "/") ==> EndsWith(p, suffix)
  {
    var u := p + "/";
    if EndsWith(u, suffix + "/") {
      assert u[|u| - |suffix| - 1..|u| - 1] == p[|p| - |suffix|..];
      assert u[|u| - |suffix| - 1..|u| - 1] == (suffix + "/")[..|suffix|] == suffix;
    }
  }

  lemma BaseOfBare(p: string)
    requires !EndsWith(p, "/") && !EndsWith(p, "/api")
    ensures ApiBase(Some(p)) == p + "/api"
  {
    if EndsWith(p, "/api/") {
      LastChar(p, "/api/");
    }
    if p == "" {
      assert ApiBase(Some(p)) == StripSlash(StripApiSuffix("")) + "/api";
    }
  }

  lemma BaseOfSlash(p: string)
    requires !EndsWith(p, "/") && !EndsWith(p, "/api")
    ensures ApiBase(Some(p + "/")) == p + "/api"
  {
    var u := p + "/";
    DropLastSlash(p, "/api");
    assert "/api" + "/" == "/api/";
    if EndsWith(u, "/api") {
      LastChar(u, "/api");
    }
    assert EndsWith(u, "/") && u[..|u| - 1] == p;
  }

  lemma BaseOfApi(p: string)
    requires !EndsWith(p, "/") && !EndsWith(p, "/api")
    ensures ApiBase(Some(p + "/api")) == p + "/api"
  {
    var u := p + "/api";
    if EndsWith(u, "/api/") {
      LastChar(u, "/api/");
    }
    assert EndsWith(u, "/api") && u[..|u| - 4] == p;
    BaseOfBare(p);
  }

  lemma BaseOfApiSlash(p: string)
    requires !EndsWith(p, "/") && !EndsWith(p, "/api")
    ensures ApiBase(Some(p + "/api/")) == p + "/api"
  {
    var u := p + "/api/";
    assert EndsWith(u, "/api/") && u[..|u| - 5] == p;
    BaseOfBare(p);
  }

  /** The four spellings of one server are the same base: bare, with `/`, with `/api`, with `/api/`. */
  lemma ApiBaseNormalises(p: string)
    requires !EndsWith(p, "/") && !EndsWith(p, "/api")
    ensures ApiBase(Some(p)) == p + "/api"
    ensures ApiBase(Some(p + "/")) == p + "/api"
    ensures ApiBase(Some(p + "/api")) == p + "/api"
    ensures ApiBase(Some(p + "/api/")) == p + "/api"
  {
    BaseOfBare(p);
    BaseOfSlash(p);
    BaseOfApi(p);
    BaseOfApiSlash(p);
  }

  /** With no URL configured the client talks to `/api` on its own origin. */
  lemma ApiBaseUnset()
    ensures ApiBase(None) == "/api" && ApiBase(Some("")) == "/api"
  {
  }

  // ---------------------------------------------------------------------------
  // Requests

  /** A multipart form value: an uploaded file or a text field. */
  datatype FormValue = FileValue(fileName: string) | TextValue(text: string)
  datatype FormField = FormField(name: string, value: FormValue)

  datatype Body = NoBody | JsonBody(json: string) | FormBody(fields: seq<FormField>)

  datatype RequestOptions = RequestOptions(verb: string, headers: map<string, string>, body: Body)

  /** The body of a failed response: unparsable, or JSON with or without an `error` field. */
  datatype ErrorPayload = Unparsable | Payload(error: Option<string>)

  /** The message of the error `request` throws for a response that is not ok. */
  function FailureMessage(p: ErrorPayload): (message: string)
    ensures message != ""
    ensures p.Payload? && Truthy(p.error) ==> message == p.error.value
    ensures !(p.Payload? && Truthy(p.error)) ==> message == "Request failed"
  {
    match p
    case Unparsable => "Request failed"
    case Payload(e) => if Truthy(e) then e.value else "Request failed"
  }

  /** A client call's result: the parsed JSON, or the thrown error's `message`. */
  datatype ApiReply<T> = Done(value: T) | Thrown(message: string)

  /** `err.message || fallback`, the text the pages show for a failed call. */
  function ShownError(message: string, fallback: string): string {
    if message != "" then message else fallback
  }

  /** `uploadPDF`'s form: the file, then the title only when it is truthy. */
  function UploadForm(file: string, title: Option<string>): (fields: seq<FormField>)
    ensures |fields| >= 1 && fields[0] == FormField("file", FileValue(file))
    ensures Truthy(title) ==> fields == [FormField("file", FileValue(file)), FormField("title", TextValue(title.value))]
    ensures !Truthy(title) ==> |fields| == 1
  {
    var form := [FormField("file", FileValue(file))];
    if Truthy(title) then form + [FormField("title", TextValue(title.value))] else form
  }

  /** `${t}` for the token: JavaScript renders a missing token as `null`. */
  function Interpolated(t: Option<string>): string {
    match t
    case Some(s) => s
    case None => "null"
  }

  /** The module-level `token` cache and the session storage behind it. */
  class Session {
    var token: Option<string>
    var storage: map<string, string>

    constructor (storage: map<string, string>)
      ensures token == None && this.storage == storage
    {
      token := None;
      this.storage := storage;
    }

    /** `setToken`: cache `t`; store it when truthy, otherwise remove the stored token. */
    method SetToken(t: Option<string>)
      modifies this
      ensures token == t
      ensures Truthy(t) ==> storage == old(storage)[TokenKey := t.value]
      ensures !Truthy(t) ==> storage == old(storage) - {TokenKey}
    {
      token := t;
      if Truthy(t) {
        storage := storage[TokenKey := t.value];
      } else {
        storage := storage - {TokenKey};
      }
    }

    /** `getToken`: the cache when truthy, otherwise whatever session storage holds, which is then cached. */
    method GetToken() returns (t: Option<string>)
      modifies this`token
      ensures Truthy(old(token)) ==> t == old(token)
      ensures !Truthy(old(token)) ==> t == Lookup(storage, TokenKey)
      ensures token == t
    {
      if !Truthy(token) {
        token := Lookup(storage, TokenKey);
      }
      t := token;
    }

    /** The URL and headers `request` hands to `fetch`. */
    method RequestHeaders(base: string, path: string, options: RequestOptions)
      returns (url: string, headers: map<string, string>)
      modifies this`token
      ensures token == (if Truthy(old(token)) then old(token)
                        else Lookup(storage, TokenKey))
      ensures url == base + path
      ensures Truthy(token) ==> "Authorization" in headers && headers["Authorization"] == "Bearer " + token.value
      ensures !options.body.FormBody? ==> "Content-Type" in headers && headers["Content-Type"] == "application/json"
      ensures headers.Keys == options.headers.Keys
        + (if Truthy(token) then {"Authorization"} else {})
        + (if options.body.FormBody? then {} else {"Content-Type"})
      ensures forall k :: (k in options.headers
        && !(k == "Authorization" && Truthy(token))
        && !(k == "Content-Type" && !options.body.FormBody?)) ==> headers[k] == options.headers[k]
    {
      headers := options.headers;
      var t := GetToken();
      if Truthy(t) {
        headers := headers["Authorization" := "Bearer " + t.value];
      }
      if !options.body.FormBody? {
        headers := headers["Content-Type" := "application/json"];
      }
      url := base + path;
    }

    /** `getPDFUrl`: the token travels in the query string, `null` when there is none. */
    method PdfUrl(base: string, fileId: string) returns (url: string)
      modifies this`token
      ensures token == (if Truthy(old(token)) then old(token)
                        else Lookup(storage, TokenKey))
      ensures url == base + "/files/" + fileId + "/pdf?token=" + Interpolated(token)
    {
      var t := GetToken();
      url := base + "/files/" + fileId + "/pdf?token=" + Interpolated(t);
    }
  }
}
