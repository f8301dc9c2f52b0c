/** src/bsky2llm/url_converter.py: converting a bsky.app post link to the
    AT-URI of the post and back. The two network look-ups (handle to DID
    and DID to handle) are parameters: a resolver answers a name or
    nothing, nothing standing for a failed request, a missing field and
    an exception alike. */
module UrlConverter {
  import opened Wrappers
  import opened Strings

  /** A network look-up: handle to DID, or DID to handle. */
  type Resolver = string -> Option<string>

  /** The collection of post records. */
  const PostCollection: string := "app.bsky.feed.post"

  /** Characters `[^/]` refuses. */
  const Slash: set<char> := {'/'}

  /** Characters `[^/?&#]` refuses. */
  const PostIdStop: set<char> := {'/', '?', '&', '#'}

  // ---------------------------------------------------------------------
  // The two patterns, matched from the start of the text

  /** Which of the four lead-ins `https?://(?:www\.)?bsky\.app/profile/` matched. */
  datatype Lead = Lead(secure: bool, www: bool)
  {
    /** The lead-in followed by rest. */
    function Before(rest: string): string
    {
      "http" + ((if secure then "s" else "") + ("://" + ((if www then "www." else "") + ("bsky.app/profile/" + rest))))
    }
  }

  /** The lead-in at the start of url and what follows it, if it is
      there: "http", an optional "s", "://", an optional "www." and
      "bsky.app/profile/". */
  function LeadIn(url: string): Option<(Lead, string)>
  {
    match DropPrefix(url, "http")
    case None => None
    case Some(a) =>
      var (secure, b) := match DropPrefix(a, "s") case Some(b) => (true, b) case None => (false, a);
      match DropPrefix(b, "://")
      case None => None
      case Some(c) =>
        var (www, d) := match DropPrefix(c, "www.") case Some(d) => (true, d) case None => (false, c);
        match DropPrefix(d, "bsky.app/profile/")
        case None => None
        case Some(e) => Some((Lead(secure, www), e))
  }

  /** `re.match(r'https?://(?:www\.)?bsky\.app/profile/([^/]+)/post/([^/?&#]+)', url)`:
      the handle and the post id, if the pattern matches. Both groups are
      greedy and stop at a character they refuse, so the match is the
      one a left-to-right scan finds. */
  function MatchPostUrl(url: string): Option<(string, string)>
  {
    match LeadIn(url)
    case None => None
    case Some((_, rest)) =>
      var (handle, r1) := Span(rest, Slash);
      if handle == [] then None
      else
        match DropPrefix(r1, "/post/")
        case None => None
        case Some(r2) =>
          var (postId, _) := Span(r2, PostIdStop);
          if postId == [] then None else Some((handle, postId))
  }

  /** `re.match(r'at://([^/]+)/([^/]+)/([^/]+)', uri)`: the authority, the
      collection and the record key, if the pattern matches. */
  function MatchAtUri(uri: string): Option<(string, string, string)>
  {
    match DropPrefix(uri, "at://")
    case None => None
    case Some(r0) =>
      var (did, r1) := Span(r0, Slash);
      if did == [] || r1 == [] then None
      else
        var (collection, r2) := Span(r1[1..], Slash);
        if collection == [] || r2 == [] then None
        else
          var (rkey, _) := Span(r2[1..], Slash);
          if rkey == [] then None else Some((did, collection, rkey))
  }

  // ---------------------------------------------------------------------
  // The two conversions

  /** The AT-URI of a post. */
  function PostUri(did: string, rkey: string): string
  {
    "at://" + (did + ("/" + (PostCollection + ("/" + rkey))))
  }

  /** The canonical link of a post, `https://bsky.app/profile/HANDLE/post/RKEY`. */
  function PostUrl(handle: string, rkey: string): string
  {
    Lead(true, false).Before(handle + ("/post/" + rkey))
  }

  /** `convert_url_to_uri`: an AT-URI is returned as it is; a post link
      becomes `at://DID/app.bsky.feed.post/POST` once its handle resolves
      to a non-empty DID; anything else gives nothing. */
  function ConvertUrlToUri(url: string, resolveDid: Resolver): (r: Option<string>)
    ensures StartsWith(url, "at://") ==> r == Some(url)
    ensures r.Some? ==> StartsWith(r.value, "at://")
    ensures r.Some? && !StartsWith(url, "at://") ==> MatchPostUrl(url).Some?
  {
    if StartsWith(url, "at://") then Some(url)
    else
      match MatchPostUrl(url)
      case None => None
      case Some((handle, postId)) =>
        match resolveDid(handle)
        case None => None
        case Some(did) => if did == "" then None else Some(PostUri(did, postId))
  }

  /** `convert_uri_to_url`: anything starting with "http" is returned as
      it is; an AT-URI of a post becomes
      `https://bsky.app/profile/HANDLE/post/RKEY` once its DID resolves to
      a non-empty handle; other collections and other texts give nothing. */
  function ConvertUriToUrl(uri: string, resolveHandle: Resolver): (r: Option<string>)
    ensures StartsWith(uri, "http") ==> r == Some(uri)
    ensures r.Some? ==> StartsWith(r.value, "http")
    ensures r.Some? && !StartsWith(uri, "http") ==>
      MatchAtUri(uri).Some? && MatchAtUri(uri).value.1 == PostCollection
  {
    if StartsWith(uri, "http") then Some(uri)
    else
      match MatchAtUri(uri)
      case None => None
      case Some((did, collection, rkey)) =>
        if collection != PostCollection then None
        else
          match resolveHandle(did)
          case None => None
          case Some(handle) => if handle == "" then None else Some(PostUrl(handle, rkey))
  }

  // ---------------------------------------------------------------------
  // The patterns match exactly the texts they describe

  /** Each of the four lead-ins is recognised in front of anything. */
  lemma LeadInComplete(lead: Lead, rest: string)
    ensures LeadIn(lead.Before(rest)) == Some((lead, rest))
  {
    var x4 := "bsky.app/profile/" + rest;
    var x3 := (if lead.www then "www." else "") + x4;
    var x2 := "://" + x3;
    var x1 := (if lead.secure then "s" else "") + x2;
    assert lead.Before(rest) == "http" + x1;
    DropPrefixAppend("http", x1);
    if lead.secure {
      DropPrefixAppend("s", x2);
    } else {
      assert x1 == x2;
      DropPrefixMismatch(x2, "s");
    }
    DropPrefixAppend("://", x3);
    if lead.www {
      DropPrefixAppend("www.", x4);
    } else {
      assert x3 == x4;
      DropPrefixMismatch(x4, "www.");
    }
    DropPrefixAppend("bsky.app/profile/", rest);
  }

  /** Whatever the lead-in recognises is one of the four, in front of the rest. */
  lemma LeadInSound(url: string)
    requires LeadIn(url).Some?
    ensures var (lead, rest) := LeadIn(url).value; url == lead.Before(rest)
  {
  }

  /** Every link of the pattern's shape yields its handle and post id:
      a lead-in, a non-empty handle without '/', "/post/", a non-empty post
      id without '/', '?', '&' or '#', and anything that starts with one of
      those four characters. */
  lemma MatchPostUrlComplete(lead: Lead, handle: string, postId: string, rest: string)
    requires handle != [] && FreeOf(handle, Slash)
    requires postId != [] && FreeOf(postId, PostIdStop)
    requires rest == [] || rest[0] in PostIdStop
    ensures MatchPostUrl(lead.Before(handle + ("/post/" + (postId + rest)))) == Some((handle, postId))
  {
    var r1 := "/post/" + (postId + rest);
    LeadInComplete(lead, handle + r1);
    SpanExact(handle, Slash, r1);
    DropPrefixAppend("/post/", postId + rest);
    SpanExact(postId, PostIdStop, rest);
  }

  /** Whatever the link pattern matches has that shape: a lead-in, then
      the handle, "/post/", the post id, and a rest that is empty or starts
      with a character the post id refuses. */
  lemma MatchPostUrlSound(url: string)
    requires MatchPostUrl(url).Some?
    ensures var (handle, postId) := MatchPostUrl(url).value;
      var (lead, afterLead) := LeadIn(url).value;
      handle != [] && FreeOf(handle, Slash) && postId != [] && FreeOf(postId, PostIdStop)
      && url == lead.Before(afterLead)
      && exists rest: string :: (rest == [] || rest[0] in PostIdStop)
           && afterLead == handle + ("/post/" + (postId + rest))
  {
    LeadInSound(url);
    var (lead, r0) := LeadIn(url).value;
    var (handle, r1) := Span(r0, Slash);
    var r2 := DropPrefix(r1, "/post/").value;
    var (postId, rest) := Span(r2, PostIdStop);
    assert r0 == handle + ("/post/" + (postId + rest));
  }

  /** Every AT-URI of the pattern's shape yields its three segments:
      "at://", three non-empty segments without '/' separated by '/', and
      anything that starts with '/'. */
  lemma MatchAtUriComplete(did: string, collection: string, rkey: string, rest: string)
    requires did != [] && FreeOf(did, Slash)
    requires collection != [] && FreeOf(collection, Slash)
    requires rkey != [] && FreeOf(rkey, Slash)
    requires rest == [] || rest[0] == '/'
    ensures MatchAtUri("at://" + (did + ("/" + (collection + ("/" + (rkey + rest)))))) == Some((did, collection, rkey))
  {
    var r2 := "/" + (rkey + rest);
    var r1 := "/" + (collection + r2);
    DropPrefixAppend("at://", did + r1);
    SpanExact(did, Slash, r1);
    assert r1[1..] == collection + r2;
    SpanExact(collection, Slash, r2);
    assert r2[1..] == rkey + rest;
    SpanExact(rkey, Slash, rest);
  }

  /** Whatever the AT-URI pattern matches has that shape. */
  lemma MatchAtUriSound(uri: string)
    requires MatchAtUri(uri).Some?
    ensures var (did, collection, rkey) := MatchAtUri(uri).value;
      did != [] && FreeOf(did, Slash) && collection != [] && FreeOf(collection, Slash)
      && rkey != [] && FreeOf(rkey, Slash)
      && exists rest: string :: (rest == [] || rest[0] == '/')
           && uri == "at://" + (did + ("/" + (collection + ("/" + (rkey + rest)))))
  {
    var r0 := DropPrefix(uri, "at://").value;
    var (did, r1) := Span(r0, Slash);
    var (collection, r2) := Span(r1[1..], Slash);
    var (rkey, rest) := Span(r2[1..], Slash);
    assert r1 == "/" + r1[1..] && r2 == "/" + r2[1..];
    assert uri == "at://" + (did + ("/" + (collection + ("/" + (rkey + rest)))));
  }

  // ---------------------------------------------------------------------
  // Properties of the conversions

  /** Converting a converted URI again changes nothing: a result is an
      AT-URI, which is returned as it is. */
  lemma UrlToUriIdempotent(url: string, resolveDid: Resolver, again: Resolver)
    requires ConvertUrlToUri(url, resolveDid).Some?
    ensures StartsWith(ConvertUrlToUri(url, resolveDid).value, "at://")
    ensures ConvertUrlToUri(ConvertUrlToUri(url, resolveDid).value, again) == ConvertUrlToUri(url, resolveDid)
  {
    if !StartsWith(url, "at://") {
      var (handle, postId) := MatchPostUrl(url).value;
      var did := resolveDid(handle).value;
      DropPrefixAppend("at://", did + ("/" + (PostCollection + ("/" + postId))));
    }
  }

  /** Converting a converted URL again changes nothing: a result starts
      with "http", which is returned as it is. */
  lemma UriToUrlIdempotent(uri: string, resolveHandle: Resolver, again: Resolver)
    requires ConvertUriToUrl(uri, resolveHandle).Some?
    ensures StartsWith(ConvertUriToUrl(uri, resolveHandle).value, "http")
    ensures ConvertUriToUrl(ConvertUriToUrl(uri, resolveHandle).value, again) == ConvertUriToUrl(uri, resolveHandle)
  {
    if !StartsWith(uri, "http") {
      var (did, _, rkey) := MatchAtUri(uri).value;
      var handle := resolveHandle(did).value;
      DropPrefixAppend("http", "s" + ("://" + ("" + ("bsky.app/profile/" + (handle + ("/post/" + rkey))))));
    }
  }

  /** A record of another collection is refused whatever the resolver says. */
  lemma OtherCollectionRefused(did: string, collection: string, rkey: string, resolveHandle: Resolver)
    requires did != [] && FreeOf(did, Slash)
    requires collection != [] && FreeOf(collection, Slash) && collection != PostCollection
    requires rkey != [] && FreeOf(rkey, Slash)
    ensures ConvertUriToUrl("at://" + (did + ("/" + (collection + ("/" + rkey)))), resolveHandle).None?
  {
    var uri := "at://" + (did + ("/" + (collection + ("/" + rkey))));
    assert rkey + "" == rkey;
    MatchAtUriComplete(did, collection, rkey, "");
    DropPrefixMismatch(uri, "http");
  }

  /** A canonical post link converts to the post's AT-URI when its handle
      resolves to a DID without '/'. */
  lemma UrlToPostUri(handle: string, postId: string, did: string, resolveDid: Resolver)
    requires handle != [] && FreeOf(handle, Slash)
    requires postId != [] && FreeOf(postId, PostIdStop)
    requires did != [] && resolveDid(handle) == Some(did)
    ensures ConvertUrlToUri(PostUrl(handle, postId), resolveDid) == Some(PostUri(did, postId))
  {
    assert postId + "" == postId;
    MatchPostUrlComplete(Lead(true, false), handle, postId, "");
    DropPrefixMismatch(PostUrl(handle, postId), "at://");
  }

  /** A post's AT-URI converts to its canonical link when its DID
      resolves to a handle. */
  lemma PostUriToUrl(did: string, rkey: string, handle: string, resolveHandle: Resolver)
    requires did != [] && FreeOf(did, Slash)
    requires rkey != [] && FreeOf(rkey, Slash)
    requires handle != [] && resolveHandle(did) == Some(handle)
    ensures ConvertUriToUrl(PostUri(did, rkey), resolveHandle) == Some(PostUrl(handle, rkey))
  {
    assert rkey + "" == rkey;
    assert FreeOf(PostCollection, Slash) && PostCollection != [];
    MatchAtUriComplete(did, PostCollection, rkey, "");
    DropPrefixMismatch(PostUri(did, rkey), "http");
  }

  /** On a canonical post link the outcome is decided by the look-up
      alone: nothing when it fails or answers "", else the post's AT-URI. */
  lemma UrlToUriCases(handle: string, postId: string, resolveDid: Resolver)
    requires handle != [] && FreeOf(handle, Slash)
    requires postId != [] && FreeOf(postId, PostIdStop)
    ensures ConvertUrlToUri(PostUrl(handle, postId), resolveDid) ==
      match resolveDid(handle)
      case None => None
      case Some(did) => if did == "" then None else Some(PostUri(did, postId))
  {
    assert postId + "" == postId;
    MatchPostUrlComplete(Lead(true, false), handle, postId, "");
    DropPrefixMismatch(PostUrl(handle, postId), "at://");
  }

  /** On a post's AT-URI the outcome is decided by the look-up alone:
      nothing when it fails or answers "", else the canonical link. */
  lemma UriToUrlCases(did: string, rkey: string, resolveHandle: Resolver)
    requires did != [] && FreeOf(did, Slash)
    requires rkey != [] && FreeOf(rkey, Slash)
    ensures ConvertUriToUrl(PostUri(did, rkey), resolveHandle) ==
      match resolveHandle(did)
      case None => None
      case Some(handle) => if handle == "" then None else Some(PostUrl(handle, rkey))
  {
    assert rkey + "" == rkey;
    assert FreeOf(PostCollection, Slash) && PostCollection != [];
    MatchAtUriComplete(did, PostCollection, rkey, "");
    DropPrefixMismatch(PostUri(did, rkey), "http");
  }

  /** With resolvers that undo each other, a canonical post link converts
      to the post's AT-URI and back to itself. */
  lemma UrlRoundTrip(handle: string, postId: string, did: string, resolveDid: Resolver, resolveHandle: Resolver)
    requires handle != [] && FreeOf(handle, Slash)
    requires postId != [] && FreeOf(postId, PostIdStop)
    requires did != [] && FreeOf(did, Slash)
    requires resolveDid(handle) == Some(did) && resolveHandle(did) == Some(handle)
    ensures ConvertUrlToUri(PostUrl(handle, postId), resolveDid) == Some(PostUri(did, postId))
    ensures ConvertUriToUrl(ConvertUrlToUri(PostUrl(handle, postId), resolveDid).value, resolveHandle) == Some(PostUrl(handle, postId))
  {
    UrlToPostUri(handle, postId, did, resolveDid);
    PostUriToUrl(did, postId, handle, resolveHandle);
  }

  /** With resolvers that undo each other, a post's AT-URI whose record
      key has none of '/', '?', '&', '#' converts to its canonical link and
      back to itself. */
  lemma UriRoundTrip(did: string, rkey: string, handle: string, resolveDid: Resolver, resolveHandle: Resolver)
    requires did != [] && FreeOf(did, Slash)
    requires rkey != [] && FreeOf(rkey, PostIdStop)
    requires handle != [] && FreeOf(handle, Slash)
    requires resolveHandle(did) == Some(handle) && resolveDid(handle) == Some(did)
    ensures ConvertUriToUrl(PostUri(did, rkey), resolveHandle) == Some(PostUrl(handle, rkey))
    ensures ConvertUrlToUri(ConvertUriToUrl(PostUri(did, rkey), resolveHandle).value, resolveDid) == Some(PostUri(did, rkey))
  {
    PostUriToUrl(did, rkey, handle, resolveHandle);
    UrlToPostUri(handle, rkey, did, resolveDid);
  }
}
