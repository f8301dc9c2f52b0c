/** src/bsky2llm/get_thread_from_url.py: the string-splitting converter
    from a bsky.app post link to the post's AT-URI. It accepts only the
    `https://bsky.app/profile/` form, drops a query string and trailing
    slashes, and cuts the rest at "profile/" and "/post/". The handle
    look-up is a parameter; every failure, raised or not, gives nothing. */
module ThreadFromUrl {
  import opened Wrappers
  import opened Strings
  import opened UrlConverter

  /** The only prefix the converter accepts. */
  const Prefix: string := "https://bsky.app/profile/"

  /** `convert_url_to_uri` as written: after the prefix test and the
      query and slash clean-up, the text is split at every "profile/" and
      the second piece kept, so a handle ending in "profile" cuts it short. */
  function ConvertUrlToUri(url: string, resolveHandle: Resolver): (r: Option<string>)
    ensures r.Some? ==> StartsWith(url, Prefix) && StartsWith(r.value, "at://")
  {
    if !StartsWith(url, Prefix) then None
    else
      var clean := RStrip(Before(url, "?"), '/');
      if !Contains(clean, "profile/") then None
      else
        var profilePart := Before(After(clean, "profile/"), "profile/");
        Resolve(profilePart, resolveHandle)
  }

  /** The common tail: the text must hold "/post/"; the handle before it
      and the record key after it lose their leading and trailing slashes,
      and the handle must resolve to a non-empty DID. */
  function Resolve(profilePart: string, resolveHandle: Resolver): (r: Option<string>)
    ensures r.Some? ==> StartsWith(r.value, "at://")
  {
    if !Contains(profilePart, "/post/") then None
    else
      var handle := Strip(Before(profilePart, "/post/"), '/');
      var rkey := Strip(After(profilePart, "/post/"), '/');
      match resolveHandle(handle)
      case None => None
      case Some(did) => if did == "" then None else Some(PostUri(did, rkey))
  }

  /** The converter as evidently intended: everything after the first
      "profile/" is kept (`split('profile/', 1)[1]`). */
  function ConvertUrlToUriFixed(url: string, resolveHandle: Resolver): (r: Option<string>)
    ensures r.Some? ==> StartsWith(url, Prefix) && StartsWith(r.value, "at://")
  {
    if !StartsWith(url, Prefix) then None
    else
      var clean := RStrip(Before(url, "?"), '/');
      if !Contains(clean, "profile/") then None
      else Resolve(After(clean, "profile/"), resolveHandle)
  }

  // ---------------------------------------------------------------------
  // Canonical links

  /** The canonical link of a post is the accepted prefix followed by
      `HANDLE/post/RKEY`. */
  lemma PostUrlHasPrefix(handle: string, rkey: string)
    ensures PostUrl(handle, rkey) == Prefix + (handle + ("/post/" + rkey))
  {
    var x := handle + ("/post/" + rkey);
    assert "http" + ("s" + ("://" + ("" + ("bsky.app/profile/" + x)))) == ("http" + "s" + "://" + "bsky.app/profile/") + x;
  }

  /** A single character that s never holds does not occur in s. */
  lemma AbsentChar(s: string, c: char)
    requires forall k :: 0 <= k < |s| ==> s[k] != c
    ensures !Contains(s, [c])
  {
    forall j: nat | j + 1 <= |s| ensures !OccursAt(s, [c], j) {
      assert s[j..j + 1][0] == s[j];
    }
  }

  /** Stripping a character that is at neither end changes nothing. */
  lemma StripNothing(s: string, c: char)
    requires s != [] && s[0] != c && s[|s| - 1] != c
    ensures Strip(s, c) == s
  {
  }

  /** In a canonical link the first "profile/" is the prefix's own. */
  lemma FirstProfile(rest: string)
    ensures IndexOf(Prefix + rest, "profile/") == Some(17)
  {
    var s := Prefix + rest;
    assert s[17..25] == "profile/";
    forall j | 0 <= j < 17 ensures !OccursAt(s, "profile/", j) {
      assert s[j] == Prefix[j] && s[j + 1] == Prefix[j + 1];
      if j + 8 <= |s| {
        assert s[j..j + 8][0] == s[j] && s[j..j + 8][1] == s[j + 1];
      }
    }
    IndexOfAt(s, "profile/", 17);
  }

  /** The characters a handle must avoid for both converters to read it alike. */
  const HandleStop: set<char> := {'/', '?'}

  /** The characters a handle pasted raw into a query string and the same
      handle sent as an encoded query parameter carry differently: '#'
      starts a fragment, '&' a new parameter, '+' reads as a space, '%'
      starts an escape and a space is not allowed. Both converters reach
      the same look-up only for handles without them. */
  const QueryStop: set<char> := {'#', '&', '+', '%', ' '}

  /** A canonical link built from a handle and a record key free of '?'
      holds no '?'. */
  lemma NoQueryInPostUrl(handle: string, rkey: string)
    requires FreeOf(handle, HandleStop) && FreeOf(rkey, PostIdStop)
    ensures var url := Prefix + (handle + ("/post/" + rkey));
      forall k :: 0 <= k < |url| ==> url[k] != '?'
  {
    var tail := handle + ("/post/" + rkey);
    forall k | 0 <= k < |tail| ensures tail[k] != '?' {
      if k >= |handle| + 6 {
        assert tail[k] == rkey[k - |handle| - 6];
      } else if k >= |handle| {
        assert tail[k] == "/post/"[k - |handle|];
      }
    }
    var url := Prefix + tail;
    forall k | 0 <= k < |url| ensures url[k] != '?' {
      if k >= |Prefix| {
        assert url[k] == tail[k - |Prefix|];
      }
    }
  }

  /** What the clean-up and the first cut leave of a canonical link: the
      query split and the slash strip change nothing, and the text after
      the first "profile/" is `HANDLE/post/RKEY`. */
  lemma CanonicalCleanUp(handle: string, rkey: string)
    requires handle != [] && FreeOf(handle, HandleStop)
    requires rkey != [] && FreeOf(rkey, PostIdStop)
    ensures var url := PostUrl(handle, rkey);
      StartsWith(url, Prefix)
      && RStrip(Before(url, "?"), '/') == url
      && Contains(url, "profile/")
      && After(url, "profile/") == handle + ("/post/" + rkey)
  {
    PostUrlHasPrefix(handle, rkey);
    var tail := handle + ("/post/" + rkey);
    var url := Prefix + tail;
    DropPrefixAppend(Prefix, tail);
    NoQueryInPostUrl(handle, rkey);
    AbsentChar(url, '?');
    assert url[|url| - 1] == rkey[|rkey| - 1];
    FirstProfile(tail);
  }

  /** The second cut of a canonical tail: the handle is what comes before
      "/post/" and the record key what comes after, both free of slashes. */
  lemma CanonicalResolve(handle: string, rkey: string, resolveHandle: Resolver)
    requires handle != [] && FreeOf(handle, HandleStop) && FreeOf(handle, QueryStop)
    requires rkey != [] && FreeOf(rkey, PostIdStop)
    ensures Resolve(handle + ("/post/" + rkey), resolveHandle) == UrlConverter.ConvertUrlToUri(PostUrl(handle, rkey), resolveHandle)
  {
    PostSplit(handle, rkey);
    StripNothing(handle, '/');
    StripNothing(rkey, '/');
    assert FreeOf(handle, Slash);
    UrlToUriCases(handle, rkey, resolveHandle);
  }

  /** `H/post/R` with H free of '/' splits at "/post/" into H and R. */
  lemma PostSplit(handle: string, rkey: string)
    requires FreeOf(handle, HandleStop)
    ensures var part := handle + ("/post/" + rkey);
      Contains(part, "/post/") && Before(part, "/post/") == handle && After(part, "/post/") == rkey
  {
    var part := handle + ("/post/" + rkey);
    assert OccursAt(part, "/post/", |handle|) by {
      assert part[|handle|..|handle| + 6] == "/post/";
    }
    forall j | 0 <= j < |handle| ensures !OccursAt(part, "/post/", j) {
      assert part[j] == handle[j];
      if j + 6 <= |part| {
        assert part[j..j + 6][0] == part[j];
      }
    }
    IndexOfAt(part, "/post/", |handle|);
  }

  // ---------------------------------------------------------------------
  // The two converters compared

  /** The corrected converter reads every canonical link whose handle has
      no '/' or '?', and nothing a query string carries differently,
      exactly as the regular-expression converter does. */
  lemma FixedAgrees(handle: string, rkey: string, resolveHandle: Resolver)
    requires handle != [] && FreeOf(handle, HandleStop) && FreeOf(handle, QueryStop)
    requires rkey != [] && FreeOf(rkey, PostIdStop)
    ensures ConvertUrlToUriFixed(PostUrl(handle, rkey), resolveHandle)
         == UrlConverter.ConvertUrlToUri(PostUrl(handle, rkey), resolveHandle)
    ensures ConvertUrlToUriFixed(PostUrl(handle, rkey), resolveHandle) ==
      match resolveHandle(handle)
      case None => None
      case Some(did) => if did == "" then None else Some(PostUri(did, rkey))
  {
    CanonicalCleanUp(handle, rkey);
    CanonicalResolve(handle, rkey, resolveHandle);
    assert FreeOf(handle, Slash);
    UrlToUriCases(handle, rkey, resolveHandle);
  }

  /** A "profile/" in `HANDLE/post/RKEY` would end in one of its two
      slashes; neither can end one unless `HANDLE/` holds it. */
  lemma NoSecondProfile(handle: string, rkey: string)
    requires FreeOf(handle, HandleStop) && !Contains(handle + "/", "profile/")
    requires FreeOf(rkey, PostIdStop)
    ensures Before(handle + ("/post/" + rkey), "profile/") == handle + ("/post/" + rkey)
  {
    var part := handle + ("/post/" + rkey);
    forall j: nat ensures !OccursAt(part, "profile/", j) {
      if j + 8 <= |part| {
        assert !OccursAt(handle + "/", "profile/", j);
        NoProfileAt(handle, rkey, j);
      }
    }
  }

  /** No "profile/" starts at offset j of `HANDLE/post/RKEY` unless one
      starts there in `HANDLE/`. */
  lemma NoProfileAt(handle: string, rkey: string, j: nat)
    requires FreeOf(handle, HandleStop) && FreeOf(rkey, PostIdStop)
    requires !OccursAt(handle + "/", "profile/", j)
    requires j + 8 <= |handle| + 6 + |rkey|
    ensures !OccursAt(handle + ("/post/" + rkey), "profile/", j)
  {
    var part := handle + ("/post/" + rkey);
    var e := j + 7;
    assert part[j..j + 8][7] == part[e];
    assert part[j..j + 8][6] == part[e - 1];
    if e < |handle| {
      assert part[e] == handle[e];
    } else if e == |handle| {
      assert part[j..j + 8] == (handle + "/")[j..j + 8];
    } else if e < |handle| + 6 {
      assert part[e - 1] == "/post/"[e - 1 - |handle|];
      assert part[e] == "/post/"[e - |handle|];
    } else {
      assert part[e] == rkey[e - |handle| - 6];
    }
  }

  /** The converter as written agrees as well, as long as the handle
      does not end in "profile". */
  lemma AsWrittenAgrees(handle: string, rkey: string, resolveHandle: Resolver)
    requires handle != [] && FreeOf(handle, HandleStop) && FreeOf(handle, QueryStop)
    requires !Contains(handle + "/", "profile/")
    requires rkey != [] && FreeOf(rkey, PostIdStop)
    ensures ConvertUrlToUri(PostUrl(handle, rkey), resolveHandle)
         == UrlConverter.ConvertUrlToUri(PostUrl(handle, rkey), resolveHandle)
  {
    CanonicalCleanUp(handle, rkey);
    NoSecondProfile(handle, rkey);
    CanonicalResolve(handle, rkey, resolveHandle);
  }

  /** A handle made of a stem without '/' or '?' and "profile" avoids both. */
  lemma ProfileHandleFree(stem: string)
    requires FreeOf(stem, HandleStop)
    ensures FreeOf(stem + "profile", HandleStop)
  {
    var handle := stem + "profile";
    forall k | 0 <= k < |handle| ensures handle[k] !in HandleStop {
      if k >= |stem| {
        assert handle[k] == "profile"[k - |stem|];
      }
    }
  }

  /** Cutting `STEMprofile/post/RKEY` at its first "profile/" leaves a
      prefix of the stem. */
  lemma CutInStem(stem: string, rkey: string)
    ensures Before(stem + "profile" + ("/post/" + rkey), "profile/") <= stem
  {
    var part := stem + "profile" + ("/post/" + rkey);
    assert part[|stem|..|stem| + 8] == "profile/";
    assert OccursAt(part, "profile/", |stem|);
    assert part[..|stem|] == stem;
  }

  /** A text without '/' holds no "/post/". */
  lemma NoPostWithoutSlash(s: string)
    requires forall k :: 0 <= k < |s| ==> s[k] != '/'
    ensures !Contains(s, "/post/")
  {
    forall j: nat | j + 6 <= |s| ensures !OccursAt(s, "/post/", j) {
      assert s[j..j + 6][0] == s[j];
    }
  }

  /** A link whose handle ends in "profile" is refused by the converter
      as written, whatever the look-up answers: the second "profile/"
      cuts the handle short and "/post/" is lost. */
  lemma ProfileSuffixRejected(stem: string, rkey: string, resolveHandle: Resolver)
    requires FreeOf(stem, HandleStop)
    requires rkey != [] && FreeOf(rkey, PostIdStop)
    ensures ConvertUrlToUri(PostUrl(stem + "profile", rkey), resolveHandle).None?
  {
    ProfileHandleFree(stem);
    CanonicalCleanUp(stem + "profile", rkey);
    CutInStem(stem, rkey);
    var cut := Before(stem + "profile" + ("/post/" + rkey), "profile/");
    assert forall k :: 0 <= k < |cut| ==> cut[k] == stem[k];
    NoPostWithoutSlash(cut);
  }

  /** Only the `https://bsky.app/profile/` lead-in is accepted: the
      "http://" and "www." forms the regular expression takes are refused. */
  lemma OtherLeadInsRefused(lead: Lead, rest: string, resolveHandle: Resolver)
    requires lead != Lead(true, false)
    ensures ConvertUrlToUri(lead.Before(rest), resolveHandle).None?
    ensures ConvertUrlToUriFixed(lead.Before(rest), resolveHandle).None?
  {
    var url := lead.Before(rest);
    assert !StartsWith(url, Prefix) by {
      if !lead.secure {
        assert url[4] == ':' && Prefix[4] == 's';
      } else {
        assert url[8] == 'w' && Prefix[8] == 'b';
      }
    }
  }

  // ---------------------------------------------------------------------
  // Clean-up

  /** A query string is dropped: everything from the first '?' on is ignored. */
  lemma QueryIgnored(url: string, query: string, resolveHandle: Resolver)
    requires forall k :: 0 <= k < |url| ==> url[k] != '?'
    ensures ConvertUrlToUri(url + ("?" + query), resolveHandle) == ConvertUrlToUri(url, resolveHandle)
  {
    var long := url + ("?" + query);
    assert OccursAt(long, "?", |url|) by { assert long[|url|..|url| + 1] == "?"; }
    forall j | 0 <= j < |url| ensures !OccursAt(long, "?", j) {
      assert long[j..j + 1][0] == url[j];
    }
    IndexOfAt(long, "?", |url|);
    assert Before(long, "?") == url;
    AbsentChar(url, '?');
    assert Before(url, "?") == url;
    assert StartsWith(long, Prefix) <==> StartsWith(url, Prefix) by {
      if |url| >= |Prefix| {
        assert long[..|Prefix|] == url[..|Prefix|];
      } else if |Prefix| <= |long| {
        assert long[..|Prefix|][|url|] == '?';
        assert forall k :: 0 <= k < |Prefix| ==> Prefix[k] != '?';
      }
    }
  }

  /** Trailing slashes are dropped before the link is cut. */
  lemma TrailingSlashIgnored(url: string, resolveHandle: Resolver)
    requires StartsWith(url, Prefix)
    requires forall k :: 0 <= k < |url| ==> url[k] != '?'
    ensures ConvertUrlToUri(url + "/", resolveHandle) == ConvertUrlToUri(url, resolveHandle)
  {
    var long := url + "/";
    forall k | 0 <= k < |long| ensures long[k] != '?' {
      if k < |url| { assert long[k] == url[k]; }
    }
    AbsentChar(url, '?');
    AbsentChar(long, '?');
    assert long[..|Prefix|] == url[..|Prefix|];
    assert long[..|long| - 1] == url;
    assert RStrip(long, '/') == RStrip(url, '/');
  }
}
