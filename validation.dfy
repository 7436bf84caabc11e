/** The create-request validator: three ordered checks over the fields of the
    request body, answering with the first violated rule's message, or with
    no message (`null`) when the body is acceptable. */
module Validation {
  import opened Optional
  import opened JsValues

  /** The three fields of the request body the validator destructures. */
  datatype CreateRequest = CreateRequest(content: Value, ttl_seconds: Value, max_views: Value)

  const ContentError: string := "content must be a non-empty string"
  const TtlError: string := "ttl_seconds must be integer \U{2265} 1"
  const MaxViewsError: string := "max_views must be integer \U{2265} 1"

  /** The check applied to `ttl_seconds` and to `max_views`: present, and
      either not an integer or below 1. */
  predicate RejectedCount(v: Value) {
    !v.Undefined? && (!IsInteger(v) || v.n < 1.0)
  }

  /** `validateCreate(body)`: the first failing check's message, or `None`. */
  function ValidateCreate(body: CreateRequest): (error: Option<string>)
    ensures error.None? || error.value in {ContentError, TtlError, MaxViewsError}
  {
    var content := body.content;
    if !Truthy(content) || !IsString(content) || Trim(content.s) == "" then
      Some(ContentError)
    else if RejectedCount(body.ttl_seconds) then
      Some(TtlError)
    else if RejectedCount(body.max_views) then
      Some(MaxViewsError)
    else
      None
  }

  /** What the content rule means: a string holding at least one character
      that is not whitespace. */
  predicate HasVisibleContent(v: Value) {
    v.Str? && exists i :: 0 <= i < |v.s| && !IsWhitespace(v.s[i])
  }

  /** What the count rules mean: the field is absent, or it is a whole
      number of at least one. */
  ghost predicate AcceptableCount(v: Value) {
    v.Undefined? || exists k: int :: 1 <= k && v == WholeNumber(k)
  }

  /** The JSON number whose value is the integer `k`. */
  function WholeNumber(k: int): Value {
    Number(k as real)
  }

  lemma HasVisibleContentIff(v: Value)
    ensures HasVisibleContent(v) <==> Truthy(v) && IsString(v) && Trim(v.s) != ""
  {
    if v.Str? {
      TrimEmptyIff(v.s);
    }
  }

  lemma AcceptableCountIff(v: Value)
    ensures AcceptableCount(v) <==> !RejectedCount(v)
  {
    if v.Number? && !RejectedCount(v) {
      var k := v.n.Floor;
      assert 1 <= k && v == WholeNumber(k);
    }
  }

  /** The content error is returned exactly when the content is not a string
      with a visible character, whatever the other two fields hold. */
  lemma ContentRule(body: CreateRequest)
    ensures ValidateCreate(body) == Some(ContentError) <==> !HasVisibleContent(body.content)
  {
    HasVisibleContentIff(body.content);
  }

  /** The ttl error is returned exactly when the content passes and
      `ttl_seconds` is present but not a whole number of at least one. */
  lemma TtlRule(body: CreateRequest)
    ensures ValidateCreate(body) == Some(TtlError)
        <==> HasVisibleContent(body.content) && !AcceptableCount(body.ttl_seconds)
  {
    HasVisibleContentIff(body.content);
    AcceptableCountIff(body.ttl_seconds);
  }

  /** The max_views error is returned exactly when the first two checks pass
      and `max_views` is present but not a whole number of at least one. */
  lemma MaxViewsRule(body: CreateRequest)
    ensures ValidateCreate(body) == Some(MaxViewsError)
        <==> HasVisibleContent(body.content) && AcceptableCount(body.ttl_seconds)
             && !AcceptableCount(body.max_views)
  {
    HasVisibleContentIff(body.content);
    AcceptableCountIff(body.ttl_seconds);
    AcceptableCountIff(body.max_views);
  }

  /** The validator answers `null` exactly when every rule passes. */
  lemma AcceptedIff(body: CreateRequest)
    ensures ValidateCreate(body).None?
        <==> HasVisibleContent(body.content) && AcceptableCount(body.ttl_seconds)
             && AcceptableCount(body.max_views)
  {
    HasVisibleContentIff(body.content);
    AcceptableCountIff(body.ttl_seconds);
    AcceptableCountIff(body.max_views);
  }

  /** An absent optional field is never the reason for a rejection. */
  lemma AbsentCountNeverRejected(body: CreateRequest)
    ensures body.ttl_seconds.Undefined? ==> ValidateCreate(body) != Some(TtlError)
    ensures body.max_views.Undefined? ==> ValidateCreate(body) != Some(MaxViewsError)
  {
  }

  /** An accepted body carries a string content, and each count field is
      absent or a number with a whole value of at least one. */
  lemma AcceptedShape(body: CreateRequest)
    requires ValidateCreate(body).None?
    ensures body.content.Str?
    ensures body.ttl_seconds.Undefined? || (body.ttl_seconds.Number? && 1 <= body.ttl_seconds.n.Floor
                                           && body.ttl_seconds.n.Floor as real == body.ttl_seconds.n)
    ensures body.max_views.Undefined? || (body.max_views.Number? && 1 <= body.max_views.n.Floor
                                         && body.max_views.n.Floor as real == body.max_views.n)
  {
  }
}
