/** The paste lifecycle as pure functions: the stored record, the expiry and
    view-limit predicates, and what each route handler answers and leaves in
    the store. The handlers themselves (class `Router` in module
    `PasteRouter`) are proved to do exactly what these functions say. */
module Pastes {
  import opened Optional
  import opened JsValues
  import opened Validation

  /** The record kept under `paste:<id>`. Instants are milliseconds. */
  datatype Paste = Paste(
    content: string,
    created_at: int,
    expires_at: Option<int>,
    max_views: Option<int>,
    views: int)

  /** The key-value store: key to record. */
  type Store = map<string, Paste>

  /** The store key of paste `id`. */
  function Key(id: string): string {
    "paste:" + id
  }

  /** Distinct identifiers never share a key. */
  lemma KeyInjective(a: string, b: string)
    ensures Key(a) == Key(b) ==> a == b
  {
    if Key(a) == Key(b) {
      assert a == Key(a)[6..];
      assert b == Key(b)[6..];
    }
  }

  /** The record invariant: views are counted from zero and never pass the
      limit, the limit is at least one, and a paste expires after it was
      created. */
  predicate WellFormed(p: Paste) {
    && p.views >= 0
    && (p.max_views.Some? ==> 1 <= p.max_views.value && p.views <= p.max_views.value)
    && (p.expires_at.Some? ==> p.expires_at.value > p.created_at)
  }

  predicate AllWellFormed(s: Store) {
    forall k :: k in s ==> WellFormed(s[k])
  }

  // ---------------------------------------------------------------------------
  // Create
  // ---------------------------------------------------------------------------

  /** The record the create handler builds from an accepted body at instant
      `createdAt`. `ttl_seconds ? … : null` and `max_views ?? null` are
      written out with JavaScript's truthiness and nullish tests. */
  function NewPaste(body: CreateRequest, createdAt: int): (p: Paste)
    requires ValidateCreate(body).None?
    ensures p.content == body.content.s && p.created_at == createdAt && p.views == 0
    ensures p.expires_at.Some? <==> !body.ttl_seconds.Undefined?
    ensures p.expires_at.Some? ==> (p.expires_at.value - createdAt) as real == 1000.0 * body.ttl_seconds.n
    ensures p.max_views.Some? <==> !body.max_views.Undefined?
    ensures p.max_views.Some? ==> p.max_views.value as real == body.max_views.n
    ensures WellFormed(p)
  {
    AcceptedShape(body);
    var ttl := body.ttl_seconds;
    var maxViews := body.max_views;
    assert ttl.Number? ==> (ttl.n.Floor * 1000) as real == 1000.0 * ttl.n;
    Paste(
      content := body.content.s,
      created_at := createdAt,
      expires_at := if Truthy(ttl) then Some(createdAt + ttl.n.Floor * 1000) else None,
      max_views := if maxViews.Undefined? || maxViews.Null? then None else Some(maxViews.n.Floor),
      views := 0)
  }

  /** The answer to `POST /api/pastes`. */
  datatype CreateResponse = Rejected(error: string) | Created(id: string, url: string) {
    function Status(): int {
      if Rejected? then 400 else 201
    }
  }

  /** The access URL the create handler is meant to return: the deployment's
      base URL followed by the render path of the paste. */
  function AccessUrl(baseUrl: string, id: string): string {
    baseUrl + "/p/" + id
  }

  /** The create handler with the access URL built from `baseUrl`: an
      accepted body is stored under `paste:<id>`, overwriting whatever was
      there; a rejected one leaves the store alone. */
  function CreateOutcome(s: Store, body: CreateRequest, id: string, now: int, baseUrl: string)
    : (out: (CreateResponse, Store))
    ensures out.0.Rejected? <==> ValidateCreate(body).Some?
    ensures out.0.Status() == (if ValidateCreate(body).Some? then 400 else 201)
    ensures out.0.Created? ==> out.0.url == AccessUrl(baseUrl, id)
    ensures out.0.Rejected? ==> out.0.error == ValidateCreate(body).value && out.1 == s
    ensures out.0.Created? ==> out.0.id == id && Key(id) in out.1 && out.1[Key(id)].views == 0
                               && out.1[Key(id)].content == body.content.s
                               && out.1[Key(id)].created_at == now
    ensures forall k :: k != Key(id) ==> (k in out.1 <==> k in s)
    ensures forall k :: k != Key(id) && k in s ==> out.1[k] == s[k]
    ensures AllWellFormed(s) ==> AllWellFormed(out.1)
  {
    match ValidateCreate(body)
    case Some(error) => (Rejected(error), s)
    case None => (Created(id, AccessUrl(baseUrl, id)), s[Key(id) := NewPaste(body, now)])
  }

  // ---------------------------------------------------------------------------
  // The lifecycle checks shared by fetch and render
  // ---------------------------------------------------------------------------

  /** `paste.expires_at` is truthy: set, and not the instant 0. */
  predicate ExpiryArmed(p: Paste) {
    p.expires_at.Some? && p.expires_at.value != 0
  }

  /** The TTL check: the paste has an armed expiry and `now` has reached it. */
  predicate IsExpired(p: Paste, now: int) {
    ExpiryArmed(p) && now >= p.expires_at.value
  }

  /** The view-limit check: a limit is set and the views have reached it. */
  predicate IsExhausted(p: Paste) {
    p.max_views.Some? && p.views >= p.max_views.value
  }

  /** The four outcomes of the checks, in the order the handlers make them. */
  datatype Verdict = Absent | Expired | Exhausted | Grantable

  function Lookup(s: Store, key: string): Option<Paste> {
    if key in s then Some(s[key]) else None
  }

  function Classify(stored: Option<Paste>, now: int): Verdict {
    match stored
    case None => Absent
    case Some(p) =>
      if IsExpired(p, now) then Expired
      else if IsExhausted(p) then Exhausted
      else Grantable
  }

  /** A paste is visible exactly when it is stored, not expired and not
      exhausted. */
  lemma GrantableIff(stored: Option<Paste>, now: int)
    ensures Classify(stored, now) == Grantable
        <==> stored.Some? && !IsExpired(stored.value, now) && !IsExhausted(stored.value)
  {
  }

  // ---------------------------------------------------------------------------
  // Fetch (consuming)
  // ---------------------------------------------------------------------------

  const NotFoundError: string := "Not found"
  const ExpiredError: string := "Expired"
  const ViewLimitError: string := "View limit exceeded"

  /** The answer to `GET /api/pastes/:id`. `expires_at` is the expiry instant
      in milliseconds; its ISO-8601 rendering is not modelled. */
  datatype FetchResponse =
    | FetchFailed(error: string)
    | Served(content: string, remaining_views: Option<int>, expires_at: Option<int>)
  {
    function Status(): int {
      if FetchFailed? then 404 else 200
    }
  }

  /** The views still available after this one: `null` for an unlimited
      paste, otherwise the limit minus the views, floored at zero. */
  function RemainingViews(p: Paste): (r: Option<int>)
    ensures r.None? <==> p.max_views.None?
    ensures r.Some? ==> r.value >= 0
    ensures r.Some? ==> (r.value == 0 <==> p.views >= p.max_views.value)
    ensures r.Some? && p.views <= p.max_views.value ==> p.views + r.value == p.max_views.value
  {
    if p.max_views.None? then None
    else if p.max_views.value - p.views > 0 then Some(p.max_views.value - p.views)
    else Some(0)
  }

  /** The `expires_at` field of a served response: the expiry when it is
      truthy, otherwise `null`. For a record the create handler wrote at an
      instant not before the epoch, that is `null` exactly when the paste
      has no TTL. */
  function ResponseExpiry(p: Paste): (r: Option<int>)
    ensures WellFormed(p) && p.created_at >= 0 ==> r == p.expires_at
    ensures r.Some? ==> r == p.expires_at
  {
    if ExpiryArmed(p) then p.expires_at else None
  }

  /** The record after one granted view. */
  function Viewed(p: Paste): Paste {
    p.(views := p.views + 1)
  }

  /** The fetch handler: what it answers and the store it leaves. Only the
      requested key is ever touched: an expired record is deleted, a
      granted one is written back with one more view, and every other
      verdict leaves the store as it was. */
  function FetchOutcome(s: Store, id: string, now: int): (out: (FetchResponse, Store))
    ensures out.0.Served? <==> Classify(Lookup(s, Key(id)), now) == Grantable
    ensures out.0.Status() == 404 <==> Classify(Lookup(s, Key(id)), now) != Grantable
    ensures out.0.Served? ==> out.0.content == s[Key(id)].content
    ensures out.0.FetchFailed? ==> out.0.error in {NotFoundError, ExpiredError, ViewLimitError}
    ensures forall k :: k != Key(id) ==> (k in out.1 <==> k in s)
    ensures forall k :: k != Key(id) && k in s ==> out.1[k] == s[k]
    ensures Key(id) in out.1 ==> Key(id) in s && out.1[Key(id)].views >= s[Key(id)].views
    ensures AllWellFormed(s) ==> AllWellFormed(out.1)
  {
    var key := Key(id);
    match Classify(Lookup(s, key), now)
    case Absent => (FetchFailed(NotFoundError), s)
    case Expired => (FetchFailed(ExpiredError), s - {key})
    case Exhausted => (FetchFailed(ViewLimitError), s)
    case Grantable =>
      var p := Viewed(s[key]);
      (Served(p.content, RemainingViews(p), ResponseExpiry(p)), s[key := p])
  }

  // ---------------------------------------------------------------------------
  // Render (non-consuming)
  // ---------------------------------------------------------------------------

  /** The answer to `GET /p/:id`: a bare 404 or the page for the content. */
  datatype RenderResponse = NotFoundPage | Page(content: string) {
    function Status(): int {
      if NotFoundPage? then 404 else 200
    }
  }

  /** The render handler runs the same checks as fetch, collapses every
      failure to one 404, and shows the content exactly when a fetch would
      be served it. It returns no store: it never writes. */
  function RenderOutcome(s: Store, id: string, now: int): (r: RenderResponse)
    ensures r.Page? <==> FetchOutcome(s, id, now).0.Served?
    ensures r.Status() == 404 <==> FetchOutcome(s, id, now).0.Status() == 404
    ensures r.Page? ==> r.content == FetchOutcome(s, id, now).0.content
  {
    var key := Key(id);
    if Classify(Lookup(s, key), now) == Grantable then Page(s[key].content) else NotFoundPage
  }
}
