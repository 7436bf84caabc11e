/** The three paste route handlers over one shared key-value store. Requests
    are handled one after another; the identifier, the current instant and
    the deployment's base URL are handed in by the caller. */
module PasteRouter {
  import opened Validation
  import opened Pastes

  class Router {
    /** The Redis keyspace, with each record held as a value. */
    var store: Store

    /** Every stored record keeps the record invariant. */
    ghost predicate Valid()
      reads this
    {
      AllWellFormed(store)
    }

    constructor ()
      ensures store == map[] && Valid()
    {
      store := map[];
    }

    /** `POST /api/pastes`: validate, build the record, write it under
        `paste:<id>` (a blind overwrite) and answer with the id and URL. */
    method Create(body: CreateRequest, id: string, now: int, baseUrl: string)
      returns (r: CreateResponse)
      modifies this
      ensures (r, store) == CreateOutcome(old(store), body, id, now, baseUrl)
      ensures old(Valid()) ==> Valid()
    {
      var error := ValidateCreate(body);
      if error.Some? {
        return Rejected(error.value);
      }
      var paste := NewPaste(body, now);
      store := store[Key(id) := paste];
      r := Created(id, AccessUrl(baseUrl, id));
    }

    /** `GET /api/pastes/:id`: load, check expiry (deleting an expired
        record), check the view limit, then count the view, write the record
        back and answer with the content. */
    method Fetch(id: string, now: int) returns (r: FetchResponse)
      modifies this
      ensures (r, store) == FetchOutcome(old(store), id, now)
      ensures old(Valid()) ==> Valid()
    {
      var key := Key(id);
      if key !in store {
        return FetchFailed(NotFoundError);
      }
      var paste := store[key];
      if IsExpired(paste, now) {
        store := store - {key};
        return FetchFailed(ExpiredError);
      }
      if IsExhausted(paste) {
        return FetchFailed(ViewLimitError);
      }
      paste := Viewed(paste);
      store := store[key := paste];
      r := Served(paste.content, RemainingViews(paste), ResponseExpiry(paste));
    }

    /** `GET /p/:id`: the same checks as fetch, every failure a bare 404,
        and no write to the store. */
    method Render(id: string, now: int) returns (r: RenderResponse)
      ensures r == RenderOutcome(store, id, now)
      ensures r.Page? <==> FetchOutcome(store, id, now).0.Served?
    {
      var key := Key(id);
      if key !in store {
        return NotFoundPage;
      }
      var paste := store[key];
      if IsExpired(paste, now) {
        return NotFoundPage;
      }
      if IsExhausted(paste) {
        return NotFoundPage;
      }
      r := Page(paste.content);
    }
  }
}
