/** Properties of the paste lifecycle that relate several requests, or that
    single out one branch of a handler. */
module PasteProperties {
  import opened Optional
  import opened JsValues
  import opened Validation
  import opened Pastes

  // ---------------------------------------------------------------------------
  // One request at a time
  // ---------------------------------------------------------------------------

  /** Creating writes exactly one key: any record already under `paste:<id>`
      is replaced by the new one. */
  lemma CreateOverwrites(s: Store, body: CreateRequest, id: string, now: int, baseUrl: string)
    requires ValidateCreate(body).None?
    ensures CreateOutcome(s, body, id, now, baseUrl).1 == s[Key(id) := NewPaste(body, now)]
    ensures CreateOutcome(s, body, id, now, baseUrl).1.Keys == s.Keys + {Key(id)}
  {
  }

  /** Fetching an absent paste answers "Not found" and changes nothing. */
  lemma FetchAbsent(s: Store, id: string, now: int)
    requires Key(id) !in s
    ensures FetchOutcome(s, id, now) == (FetchFailed(NotFoundError), s)
  {
  }

  /** Expiry wins over the view limit: an expired paste answers "Expired"
      whatever its views, and only its key is deleted. */
  lemma FetchExpired(s: Store, id: string, now: int)
    requires Key(id) in s && IsExpired(s[Key(id)], now)
    ensures FetchOutcome(s, id, now) == (FetchFailed(ExpiredError), s - {Key(id)})
  {
  }

  /** An unexpired paste whose views reached the limit answers "View limit
      exceeded" and changes nothing. */
  lemma FetchExhausted(s: Store, id: string, now: int)
    requires Key(id) in s && !IsExpired(s[Key(id)], now) && IsExhausted(s[Key(id)])
    ensures FetchOutcome(s, id, now) == (FetchFailed(ViewLimitError), s)
  {
  }

  /** A granted fetch writes back the same record with exactly one more view
      and reports the views left after it. */
  lemma FetchGranted(s: Store, id: string, now: int)
    requires Key(id) in s && !IsExpired(s[Key(id)], now) && !IsExhausted(s[Key(id)])
    ensures var (r, s') := FetchOutcome(s, id, now);
            var p := s[Key(id)];
            && Key(id) in s'
            && s'[Key(id)] == p.(views := p.views + 1)
            && r == Served(p.content, RemainingViews(s'[Key(id)]), ResponseExpiry(p))
  {
  }

  /** A record the create handler wrote (at an instant that is not before
      the epoch) has a truthy expiry exactly when it has one at all. */
  lemma ExpiryArmedWhenSet(p: Paste)
    requires WellFormed(p) && p.created_at >= 0
    ensures ExpiryArmed(p) <==> p.expires_at.Some?
  {
  }

  // ---------------------------------------------------------------------------
  // Sequences of fetches of one paste
  // ---------------------------------------------------------------------------

  /** The responses to, and the store after, fetching paste `id` at each of
      the instants `nows` in turn. */
  function FetchMany(s: Store, id: string, nows: seq<int>): (out: (seq<FetchResponse>, Store))
    ensures |out.0| == |nows|
    decreases |nows|
  {
    if nows == [] then ([], s)
    else
      var (r, s1) := FetchOutcome(s, id, nows[0]);
      var (rs, s2) := FetchMany(s1, id, nows[1..]);
      ([r] + rs, s2)
  }

  /** How many of the responses served the content. */
  function ServedCount(rs: seq<FetchResponse>): nat {
    if rs == [] then 0 else (if rs[0].Served? then 1 else 0) + ServedCount(rs[1..])
  }

  /** Once a paste is gone, no fetch serves it and nothing is written. */
  lemma {:induction false} AbsentStaysAbsent(s: Store, id: string, nows: seq<int>)
    requires Key(id) !in s
    ensures FetchMany(s, id, nows).1 == s
    ensures ServedCount(FetchMany(s, id, nows).0) == 0
    decreases |nows|
  {
    if nows != [] {
      AbsentStaysAbsent(s, id, nows[1..]);
    }
  }

  /** Any sequence of fetches keeps every record well formed; in particular
      `views` never passes `max_views`. */
  lemma {:induction false} FetchManyKeepsWellFormed(s: Store, id: string, nows: seq<int>)
    requires AllWellFormed(s)
    ensures AllWellFormed(FetchMany(s, id, nows).1)
    decreases |nows|
  {
    if nows != [] {
      FetchManyKeepsWellFormed(FetchOutcome(s, id, nows[0]).1, id, nows[1..]);
    }
  }

  /** A paste with a view limit is served at most as many times as it has
      views left, however many fetches arrive. */
  lemma {:induction false} ViewBudget(s: Store, id: string, nows: seq<int>)
    requires AllWellFormed(s) && Key(id) in s && s[Key(id)].max_views.Some?
    ensures ServedCount(FetchMany(s, id, nows).0) <= s[Key(id)].max_views.value - s[Key(id)].views
    decreases |nows|
  {
    if nows != [] {
      var key := Key(id);
      var (r, s1) := FetchOutcome(s, id, nows[0]);
      if key in s1 {
        ViewBudget(s1, id, nows[1..]);
      } else {
        AbsentStaysAbsent(s1, id, nows[1..]);
      }
    }
  }

  /** Each served fetch consumes exactly one view: while the paste is still
      stored, its views have grown by the number of fetches that served it. */
  lemma {:induction false} ViewsCountServed(s: Store, id: string, nows: seq<int>)
    requires Key(id) in s
    ensures var (rs, s') := FetchMany(s, id, nows);
            Key(id) in s' ==> s'[Key(id)].views == s[Key(id)].views + ServedCount(rs)
    decreases |nows|
  {
    if nows != [] {
      var key := Key(id);
      var (r, s1) := FetchOutcome(s, id, nows[0]);
      if key in s1 {
        ViewsCountServed(s1, id, nows[1..]);
      } else {
        AbsentStaysAbsent(s1, id, nows[1..]);
      }
    }
  }

  /** Fetching changes nothing about a paste but its view count. */
  lemma {:induction false} FetchManyKeepsRecord(s: Store, id: string, nows: seq<int>)
    requires Key(id) in s
    ensures var s' := FetchMany(s, id, nows).1;
            Key(id) in s' ==> s'[Key(id)] == s[Key(id)].(views := s'[Key(id)].views)
    decreases |nows|
  {
    if nows != [] {
      var (r, s1) := FetchOutcome(s, id, nows[0]);
      if Key(id) in s1 {
        FetchManyKeepsRecord(s1, id, nows[1..]);
      } else {
        AbsentStaysAbsent(s1, id, nows[1..]);
      }
    }
  }

  // ---------------------------------------------------------------------------
  // Create, then fetch
  // ---------------------------------------------------------------------------

  /** A paste just created is served its exact content by a fetch made
      before its expiry. */
  lemma CreateThenFetch(s: Store, body: CreateRequest, id: string, created: int, now: int, baseUrl: string)
    requires ValidateCreate(body).None?
    requires body.ttl_seconds.Undefined? || (now - created) as real < 1000.0 * body.ttl_seconds.n
    ensures var s1 := CreateOutcome(s, body, id, created, baseUrl).1;
            var r := FetchOutcome(s1, id, now).0;
            r.Served? && r.content == body.content.s
            && (r.remaining_views.None? <==> body.max_views.Undefined?)
  {
    var p := NewPaste(body, created);
    assert !IsExpired(p, now);
    assert !IsExhausted(p);
  }

  /** A paste created with neither limit is served, with no remaining-views
      count and no expiry, on every one of any number of fetches. */
  lemma {:induction false} UnlimitedPasteAlwaysServed(s: Store, id: string, nows: seq<int>)
    requires Key(id) in s && s[Key(id)].expires_at.None? && s[Key(id)].max_views.None?
    ensures var rs := FetchMany(s, id, nows).0;
            forall i :: 0 <= i < |rs| ==> rs[i] == Served(s[Key(id)].content, None, None)
    ensures var s' := FetchMany(s, id, nows).1;
            Key(id) in s' && s'[Key(id)].expires_at.None? && s'[Key(id)].max_views.None?
    decreases |nows|
  {
    if nows != [] {
      var s1 := FetchOutcome(s, id, nows[0]).1;
      UnlimitedPasteAlwaysServed(s1, id, nows[1..]);
      var rs := FetchMany(s, id, nows).0;
      var rest := FetchMany(s1, id, nows[1..]).0;
      assert rs == [FetchOutcome(s, id, nows[0]).0] + rest;
      forall i | 0 <= i < |rs| ensures rs[i] == Served(s[Key(id)].content, None, None) {
        if i > 0 {
          assert rs[i] == rest[i - 1];
        }
      }
    }
  }

  /** A paste created with a one-second TTL is served at every instant before
      1000 ms after its creation (999 ms after it, say), and has expired at
      1000 ms after it and at every later instant. */
  lemma OneSecondTtl(s: Store, body: CreateRequest, id: string, created: int, baseUrl: string,
                     early: int, late: int)
    requires ValidateCreate(body).None? && body.ttl_seconds == Number(1.0) && body.max_views.Undefined?
    requires created >= 0
    requires early < created + 1000 <= late
    ensures var s1 := CreateOutcome(s, body, id, created, baseUrl).1;
            && FetchOutcome(s1, id, early).0.Served?
            && FetchOutcome(s1, id, late).0 == FetchFailed(ExpiredError)
  {
    var p := NewPaste(body, created);
    assert p.expires_at == Some(created + 1000) && ExpiryArmed(p) && !IsExhausted(p);
    CreateOverwrites(s, body, id, created, baseUrl);
    var s1 := CreateOutcome(s, body, id, created, baseUrl).1;
    FetchGranted(s1, id, early);
    FetchExpired(s1, id, late);
  }

  /** A paste created with `max_views` 2 is served with 1 view left, then
      with 0, and the third fetch is refused with "View limit exceeded". */
  lemma TwoViewPaste(s: Store, body: CreateRequest, id: string, created: int, baseUrl: string,
                     t1: int, t2: int, t3: int)
    requires ValidateCreate(body).None? && body.ttl_seconds.Undefined? && body.max_views == Number(2.0)
    ensures var s0 := CreateOutcome(s, body, id, created, baseUrl).1;
            var (r1, s1) := FetchOutcome(s0, id, t1);
            var (r2, s2) := FetchOutcome(s1, id, t2);
            var (r3, s3) := FetchOutcome(s2, id, t3);
            && r1.Served? && r1.remaining_views == Some(1)
            && r2.Served? && r2.remaining_views == Some(0)
            && r3 == FetchFailed(ViewLimitError)
            && s3[Key(id)].views == 2
  {
    var p := NewPaste(body, created);
    assert p.max_views == Some(2) && p.expires_at.None? && p.views == 0;
    CreateOverwrites(s, body, id, created, baseUrl);
    var s0 := CreateOutcome(s, body, id, created, baseUrl).1;
    FetchGranted(s0, id, t1);
    var s1 := FetchOutcome(s0, id, t1).1;
    FetchGranted(s1, id, t2);
    var s2 := FetchOutcome(s1, id, t2).1;
    FetchExhausted(s2, id, t3);
  }
}
