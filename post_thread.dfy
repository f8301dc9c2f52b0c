/** src/bsky2llm/get_post_thread.py: the safe nested lookup, the media
    extractor that probes a raw post's embed in a fixed order, and the
    recursive normaliser that turns a raw thread node into a clean post
    with defaulted fields and its surviving replies. */
module PostThread {
  import opened Wrappers
  import opened Strings
  import opened Json

  // ---------------------------------------------------------------------
  // safe_get

  /** Following `keys` from `cur`: every step needs a dict that holds the next key. */
  function Walk(cur: Json, keys: seq<string>): Option<Json>
    decreases |keys|
  {
    if keys == [] then Some(cur)
    else if cur.JObj? && keys[0] in cur.obj then Walk(cur.obj[keys[0]], keys[1..])
    else None
  }

  /** What `safe_get(obj, *keys, default=default)` returns. */
  function Lookup(obj: Json, keys: seq<string>, default: Json): Json
  {
    if !obj.JObj? then default else Walk(obj, keys).GetOr(default)
  }

  /** `safe_get`: a non-dict start yields the default; otherwise the key
      path is followed while the current value is a dict holding the next
      key, and the default comes back as soon as it is not. */
  method SafeGet(obj: Json, keys: seq<string>, default: Json) returns (r: Json)
    ensures r == Lookup(obj, keys, default)
  {
    if !obj.JObj? {
      return default;
    }
    var current := obj;
    for i := 0 to |keys|
      invariant Walk(obj, keys) == Walk(current, keys[i..])
    {
      assert keys[i..][0] == keys[i] && keys[i..][1..] == keys[i + 1..];
      if !current.JObj? {
        return default;
      }
      if keys[i] !in current.obj {
        return default;
      }
      current := current.obj[keys[i]];
    }
    return current;
  }

  /** Walking a concatenated path is walking its first part and then the
      second from the value reached. */
  lemma {:induction false} WalkAppend(cur: Json, ks1: seq<string>, ks2: seq<string>)
    ensures Walk(cur, ks1 + ks2) == match Walk(cur, ks1) case None => None case Some(v) => Walk(v, ks2)
    decreases |ks1|
  {
    if ks1 != [] {
      assert (ks1 + ks2)[0] == ks1[0] && (ks1 + ks2)[1..] == ks1[1..] + ks2;
      if cur.JObj? && ks1[0] in cur.obj {
        WalkAppend(cur.obj[ks1[0]], ks1[1..], ks2);
      }
    } else {
      assert ks1 + ks2 == ks2;
    }
  }

  /** The i-th step of the path can be taken: the value reached by the
      first i keys is a dict that holds key i. */
  ghost predicate StepOk(cur: Json, keys: seq<string>, i: nat)
    requires i < |keys|
  {
    var v := Walk(cur, keys[..i]);
    v.Some? && v.value.JObj? && keys[i] in v.value.obj
  }

  /** `safe_get` finds a value exactly when every intermediate value is a
      dict holding the next key, and that value is the one the last key
      names in the last intermediate dict. */
  lemma {:induction false} WalkResolves(cur: Json, keys: seq<string>)
    ensures Walk(cur, keys).Some? <==> forall i :: 0 <= i < |keys| ==> StepOk(cur, keys, i)
    ensures |keys| > 0 && Walk(cur, keys).Some? ==>
      StepOk(cur, keys, |keys| - 1) &&
      Walk(cur, keys).value == Walk(cur, keys[..|keys| - 1]).value.obj[keys[|keys| - 1]]
    decreases |keys|
  {
    if keys != [] {
      var n := |keys| - 1;
      var init := keys[..n];
      assert keys == init + [keys[n]];
      WalkAppend(cur, init, [keys[n]]);
      WalkResolves(cur, init);
      forall i | 0 <= i < n ensures StepOk(cur, keys, i) <==> StepOk(cur, init, i) {
        assert keys[..i] == init[..i];
      }
      assert keys[..n] == init;
      match Walk(cur, init)
      case None =>
      case Some(v) =>
        assert [keys[n]][1..] == [];
        assert Walk(v, [keys[n]]) == if v.JObj? && keys[n] in v.obj then Some(v.obj[keys[n]]) else None;
        assert StepOk(cur, keys, n) <==> v.JObj? && keys[n] in v.obj;
    }
  }

  // ---------------------------------------------------------------------
  // _extract_media_from_post

  /** One media record the extractor appends. */
  datatype MediaItem =
    | Image(uri: Json, alt: Json)
    | Link(uri: Json, title: Json, description: Json, thumbnail: Option<Json>)
    | Video(uri: Json, poster: Json)
    | CdnMedia(uri: Json, ref: string)
    | HlsVideo(uri: Json)
  {
    /** The dict the source appends for this record. */
    function ToJson(): (j: Json)
      ensures j.JObj? && "type" in j.obj && "uri" in j.obj && j.obj["uri"] == uri
      ensures j.obj["type"] == JStr(if Image? then "image" else if Link? then "link" else if CdnMedia? then "media" else "video")
      ensures "thumbnail" in j.obj <==> Link? && thumbnail.Some?
      ensures "format" in j.obj <==> HlsVideo?
      ensures Image? ==> j.obj.Keys == {"type", "uri", "alt"} && j.obj["alt"] == alt
      ensures Link? ==> (j.obj.Keys - {"thumbnail"} == {"type", "uri", "title", "description"}
                         && j.obj["title"] == title && j.obj["description"] == description
                         && (thumbnail.Some? ==> j.obj["thumbnail"] == thumbnail.value))
      ensures Video? ==> j.obj.Keys == {"type", "uri", "poster"} && j.obj["poster"] == poster
      ensures CdnMedia? ==> j.obj.Keys == {"type", "uri", "ref"} && j.obj["ref"] == JStr(ref)
      ensures HlsVideo? ==> j.obj.Keys == {"type", "uri", "format"} && j.obj["format"] == JStr("hls")
    {
      match this
      case Image(u, a) => JObj(map["type" := JStr("image"), "uri" := u, "alt" := a])
      case Link(u, t, d, th) =>
        var card := map["type" := JStr("link"), "uri" := u, "title" := t, "description" := d];
        JObj(if th.Some? then card["thumbnail" := th.value] else card)
      case Video(u, p) => JObj(map["type" := JStr("video"), "uri" := u, "poster" := p])
      case CdnMedia(u, r) => JObj(map["type" := JStr("media"), "uri" := u, "ref" := JStr(r)])
      case HlsVideo(u) => JObj(map["type" := JStr("video"), "uri" := u, "format" := JStr("hls")])
    }
  }

  /** The CDN thumbnail URL derived from a blob reference: a best guess
      built from the content hash, not a URL the upstream returned. */
  function CdnThumbnailUrl(link: string): string
  {
    "https://cdn.bsky.app/img/feed_thumbnail/plain/" + link + "@jpeg"
  }

  /** The embed the extractor reads: `post["embed"]` whenever that key
      exists, whatever its value, and `post.record.embed` otherwise. */
  function EmbedOf(post: Dict): Json
  {
    if "embed" in post then post["embed"] else Lookup(JObj(post), ["record", "embed"], JNull)
  }

  /** A video's URL: `url` when truthy, else `currentSrc` (default ""). */
  function VideoUrl(video: Json): Json
  {
    Or(Lookup(video, ["url"], JNull), Lookup(video, ["currentSrc"], JStr("")))
  }

  /** The record for `embed.video`, `media.video` or `items[].video`. */
  function VideoEntry(video: Json): seq<MediaItem>
  {
    if video.JObj? && Truthy(VideoUrl(video))
    then [Video(VideoUrl(video), Lookup(video, ["poster"], JStr("")))]
    else []
  }

  /** The record for one entry of `embed.images`. */
  function ImageEntry(image: Json): seq<MediaItem>
  {
    var fullsize := Lookup(image, ["fullsize"], JNull);
    if image.JObj? && fullsize.JStr? && fullsize.s != ""
    then [Image(fullsize, Lookup(image, ["alt"], JStr("")))]
    else []
  }

  /** The records for the entries of `embed.images`, in list order. */
  function ImagesFrom(images: seq<Json>): seq<MediaItem>
  {
    if images == [] then []
    else ImagesFrom(images[..|images| - 1]) + ImageEntry(images[|images| - 1])
  }

  /** The `link` record for `embed.external`, with a thumbnail only when
      `external.thumb` is a dict with a truthy `url`. */
  function LinkItems(external: Json): seq<MediaItem>
  {
    var uri := Lookup(external, ["uri"], JStr(""));
    var thumb := Lookup(external, ["thumb"], JNull);
    var thumbUrl := Lookup(thumb, ["url"], JStr(""));
    if external.JObj? && Truthy(uri)
    then [Link(uri, Lookup(external, ["title"], JStr("")), Lookup(external, ["description"], JStr("")),
               if thumb.JObj? && Truthy(thumbUrl) then Some(thumbUrl) else None)]
    else []
  }

  /** The image of one `media.items` entry: `url`, else `fullsize`. */
  function ItemImageEntry(image: Json): seq<MediaItem>
  {
    var url := Or(Lookup(image, ["url"], JNull), Lookup(image, ["fullsize"], JStr("")));
    if image.JObj? && Truthy(url) then [Image(url, Lookup(image, ["alt"], JStr("")))] else []
  }

  /** One `media.items` entry: its video, then its image. */
  function ItemEntry(item: Json): seq<MediaItem>
  {
    if item.JObj?
    then VideoEntry(Lookup(item, ["video"], JNull)) + ItemImageEntry(Lookup(item, ["image"], JNull))
    else []
  }

  /** The records for the entries of `media.items`, in list order. */
  function ItemsFrom(items: seq<Json>): seq<MediaItem>
  {
    if items == [] then []
    else ItemsFrom(items[..|items| - 1]) + ItemEntry(items[|items| - 1])
  }

  /** The derived CDN record for `media.ref` when it is a dict whose `$link` is a string. */
  function RefItems(ref: Json): seq<MediaItem>
  {
    if ref.JObj? && "$link" in ref.obj && ref.obj["$link"].JStr?
    then [CdnMedia(JStr(CdnThumbnailUrl(ref.obj["$link"].s)), ref.obj["$link"].s)]
    else []
  }

  /** The records found under `embed.media`: its video, its items, its ref. */
  function MediaObjItems(media: Json): seq<MediaItem>
  {
    var items := Lookup(media, ["items"], JNull);
    if media.JObj?
    then VideoEntry(Lookup(media, ["video"], JNull))
         + (if items.JArr? then ItemsFrom(items.arr) else [])
         + RefItems(Lookup(media, ["ref"], JNull))
    else []
  }

  /** The HLS record for a non-empty string `embed.playlist`. */
  function PlaylistItems(playlist: Json): seq<MediaItem>
  {
    if playlist.JStr? && playlist.s != "" then [HlsVideo(playlist)] else []
  }

  /** The record for `post.embedView.video`, whose URL is `url` only. */
  function EmbedViewItems(video: Json): seq<MediaItem>
  {
    var url := Lookup(video, ["url"], JStr(""));
    if video.JObj? && Truthy(url) then [Video(url, Lookup(video, ["poster"], JStr("")))] else []
  }

  /** Everything `_extract_media_from_post` returns, probe by probe in
      the source's order: images, the link card, then the rest; nothing
      is deduplicated. */
  function MediaOf(post: Json): seq<MediaItem>
  {
    if !post.JObj? then []
    else
      var embed := EmbedOf(post.obj);
      if !embed.JObj? then []
      else
        ImageItemsOf(embed) + LinkItems(Lookup(embed, ["external"], JNull)) + TailItems(post, embed)
  }

  /** The records found after the link card: videos, images, derived
      media and HLS records. */
  function TailItems(post: Json, embed: Json): seq<MediaItem>
  {
    VideoEntry(Lookup(embed, ["video"], JNull))
    + MediaObjItems(Lookup(embed, ["media"], JNull))
    + PlaylistItems(Lookup(embed, ["playlist"], JNull))
    + EmbedViewItems(Lookup(post, ["embedView", "video"], JNull))
  }

  /** The records for `embed.images` when it is a list. */
  function ImageItemsOf(embed: Json): seq<MediaItem>
  {
    var images := Lookup(embed, ["images"], JNull);
    if images.JArr? then ImagesFrom(images.arr) else []
  }

  /** `url = safe_get(v, "url") or safe_get(v, "currentSrc", default="")`
      and the video record it yields, if any. */
  method VideoRecord(video: Json) returns (found: seq<MediaItem>)
    ensures found == VideoEntry(video)
  {
    found := [];
    if video.JObj? {
      var url := SafeGet(video, ["url"], JNull);
      if !Truthy(url) {
        url := SafeGet(video, ["currentSrc"], JStr(""));
      }
      if Truthy(url) {
        var poster := SafeGet(video, ["poster"], JStr(""));
        found := [Video(url, poster)];
      }
    }
  }

  /** The image loop over `embed.images`. */
  method ImageRecords(images: Json) returns (media: seq<MediaItem>)
    ensures media == (if images.JArr? then ImagesFrom(images.arr) else [])
  {
    media := [];
    if images.JArr? {
      var entries := images.arr;
      for i := 0 to |entries|
        invariant media == ImagesFrom(entries[..i])
      {
        assert entries[..i + 1][..i] == entries[..i];
        var image := entries[i];
        if !image.JObj? {
          continue;
        }
        var fullsize := SafeGet(image, ["fullsize"], JNull);
        if fullsize.JStr? && fullsize.s != "" {
          var alt := SafeGet(image, ["alt"], JStr(""));
          media := media + [Image(fullsize, alt)];
        }
      }
      assert entries[..|entries|] == entries;
    }
  }

  /** The link-card block over `embed.external`. */
  method LinkRecord(external: Json) returns (media: seq<MediaItem>)
    ensures media == LinkItems(external)
  {
    media := [];
    if external.JObj? {
      var uri := SafeGet(external, ["uri"], JStr(""));
      if Truthy(uri) {
        var title := SafeGet(external, ["title"], JStr(""));
        var description := SafeGet(external, ["description"], JStr(""));
        var thumbnail: Option<Json> := None;
        var thumb := SafeGet(external, ["thumb"], JNull);
        if thumb.JObj? {
          var thumbnailUrl := SafeGet(thumb, ["url"], JStr(""));
          if Truthy(thumbnailUrl) {
            thumbnail := Some(thumbnailUrl);
          }
        }
        media := [Link(uri, title, description, thumbnail)];
      }
    }
  }

  /** One `media.items` entry: its video, then its image (`url`, else `fullsize`). */
  method ItemRecord(item: Json) returns (found: seq<MediaItem>)
    ensures found == ItemEntry(item)
  {
    found := [];
    if !item.JObj? {
      return;
    }
    var itemVideo := SafeGet(item, ["video"], JNull);
    found := VideoRecord(itemVideo);
    var itemImage := SafeGet(item, ["image"], JNull);
    if itemImage.JObj? {
      var url := SafeGet(itemImage, ["url"], JNull);
      if !Truthy(url) {
        url := SafeGet(itemImage, ["fullsize"], JStr(""));
      }
      if Truthy(url) {
        var alt := SafeGet(itemImage, ["alt"], JStr(""));
        found := found + [Image(url, alt)];
      }
    }
  }

  /** The item loop over `media.items`: each dict entry's video, then its image. */
  method ItemRecords(entries: seq<Json>) returns (media: seq<MediaItem>)
    ensures media == ItemsFrom(entries)
  {
    media := [];
    for i := 0 to |entries|
      invariant media == ItemsFrom(entries[..i])
    {
      assert entries[..i + 1][..i] == entries[..i];
      var found := ItemRecord(entries[i]);
      media := media + found;
    }
    assert entries[..|entries|] == entries;
  }

  /** The block over `embed.media`: its video, its items, its ref. */
  method MediaObjRecords(mediaObj: Json) returns (media: seq<MediaItem>)
    ensures media == MediaObjItems(mediaObj)
  {
    media := [];
    if mediaObj.JObj? {
      var mediaVideo := SafeGet(mediaObj, ["video"], JNull);
      media := VideoRecord(mediaVideo);
      var items := SafeGet(mediaObj, ["items"], JNull);
      if items.JArr? {
        var found := ItemRecords(items.arr);
        media := media + found;
      }
      var ref := SafeGet(mediaObj, ["ref"], JNull);
      if ref.JObj? && "$link" in ref.obj {
        var refLink := ref.obj["$link"];
        if refLink.JStr? {
          media := media + [CdnMedia(JStr(CdnThumbnailUrl(refLink.s)), refLink.s)];
        }
      }
    }
  }

  /** The embed selection: `post["embed"]` when the key exists, else
      `record.embed` when that lookup is not None. */
  method SelectEmbed(post: Dict) returns (embed: Json)
    ensures embed == EmbedOf(post)
  {
    embed := JNull;
    if "embed" in post {
      embed := post["embed"];
    } else {
      var nested := SafeGet(JObj(post), ["record", "embed"], JNull);
      if nested != JNull {
        embed := SafeGet(JObj(post), ["record", "embed"], JNull);
      }
    }
  }

  /** The `embedView.video` block. */
  method EmbedViewRecord(post: Json) returns (media: seq<MediaItem>)
    ensures media == EmbedViewItems(Lookup(post, ["embedView", "video"], JNull))
  {
    media := [];
    var embedViewVideo := SafeGet(post, ["embedView", "video"], JNull);
    if embedViewVideo.JObj? {
      var url := SafeGet(embedViewVideo, ["url"], JStr(""));
      if Truthy(url) {
        var poster := SafeGet(embedViewVideo, ["poster"], JStr(""));
        media := [Video(url, poster)];
      }
    }
  }

  /** `_extract_media_from_post`, appending to `media` probe by probe. */
  method ExtractMedia(post: Json) returns (media: seq<MediaItem>)
    ensures media == MediaOf(post)
  {
    if !post.JObj? {
      return [];
    }
    var embed := SelectEmbed(post.obj);
    if !embed.JObj? {
      return [];
    }
    var images := SafeGet(embed, ["images"], JNull);
    media := ImageRecords(images);
    assert media == ImageItemsOf(embed);
    var external := SafeGet(embed, ["external"], JNull);
    var link := LinkRecord(external);
    var video := SafeGet(embed, ["video"], JNull);
    var direct := VideoRecord(video);
    var mediaObj := SafeGet(embed, ["media"], JNull);
    var nestedMedia := MediaObjRecords(mediaObj);
    var playlist := SafeGet(embed, ["playlist"], JNull);
    var hls: seq<MediaItem> := [];
    if playlist.JStr? && playlist.s != "" {
      hls := [HlsVideo(playlist)];
    }
    var viewed := EmbedViewRecord(post);
    var tail := direct + nestedMedia + hls + viewed;
    media := media + link + tail;
  }

  // ---------------------------------------------------------------------
  // _process_thread_node (get_post_thread.py)

  /** The clean author record: `did`, `handle`, `display_name` (read from
      `displayName`) and `avatar`, each defaulting to "". */
  datatype Author = Author(did: Json, handle: Json, displayName: Json, avatar: Json)
  {
    function ToJson(): (j: Json)
      ensures j.JObj? && j.obj.Keys == {"did", "handle", "display_name", "avatar"}
      ensures j.obj["display_name"] == displayName
    {
      JObj(map["did" := did, "handle" := handle, "display_name" := displayName, "avatar" := avatar])
    }
  }

  /** A normalised post with its surviving replies, in reply order. */
  datatype CleanPost = CleanPost(
    uri: Json, cid: Json, author: Author, text: Json, createdAt: Json,
    media: seq<MediaItem>, likedByMe: Json, repostedByMe: Json,
    replyCount: Json, repostCount: Json, likeCount: Json,
    replies: seq<CleanPost>)
  {
    /** The dict the source builds: eleven fixed keys, and `replies` only
        when at least one reply survived. It is never empty, so it is truthy. */
    function ToJson(): (j: Json)
      ensures j.JObj? && Truthy(j)
      ensures "replies" in j.obj <==> replies != []
      ensures replies != [] ==> j.obj["replies"] == JArr(PostsJson(replies))
      ensures "uri" in j.obj && j.obj["uri"] == uri && "text" in j.obj && j.obj["text"] == text
      ensures "author" in j.obj && j.obj["author"] == author.ToJson()
    {
      var base := map[
        "uri" := uri, "cid" := cid, "author" := author.ToJson(), "text" := text,
        "created_at" := createdAt, "media" := MediaJson(media),
        "liked_by_me" := likedByMe, "reposted_by_me" := repostedByMe,
        "reply_count" := replyCount, "repost_count" := repostCount, "like_count" := likeCount];
      var full := if replies == [] then base else base["replies" := JArr(PostsJson(replies))];
      assert "uri" in full;
      JObj(full)
    }
  }

  /** The `media` list as the source stores it. */
  function MediaJson(media: seq<MediaItem>): (j: Json)
    ensures j.JArr? && |j.arr| == |media|
    ensures forall k :: 0 <= k < |media| ==> j.arr[k] == media[k].ToJson()
  {
    JArr(seq(|media|, k requires 0 <= k < |media| => media[k].ToJson()))
  }

  /** The dicts of a list of clean posts. */
  function PostsJson(posts: seq<CleanPost>): (js: seq<Json>)
    ensures |js| == |posts|
    ensures forall k :: 0 <= k < |posts| ==> js[k] == posts[k].ToJson()
  {
    seq(|posts|, k requires 0 <= k < |posts| => posts[k].ToJson())
  }

  /** The clean post dict holds the eleven fixed keys, and `replies`
      only when some reply survived. */
  lemma CleanPostKeys(c: CleanPost)
    ensures c.ToJson().obj.Keys - {"replies"} == {"uri", "cid", "author", "text", "created_at", "media",
      "liked_by_me", "reposted_by_me", "reply_count", "repost_count", "like_count"}
  {
  }

  /** Each fixed key of the clean post dict holds its field. */
  lemma CleanPostValues(c: CleanPost)
    ensures var d := c.ToJson().obj;
      "cid" in d && "created_at" in d && "media" in d
      && d["cid"] == c.cid && d["created_at"] == c.createdAt && d["media"] == MediaJson(c.media)
    ensures var d := c.ToJson().obj;
      "liked_by_me" in d && "reposted_by_me" in d && d["liked_by_me"] == c.likedByMe && d["reposted_by_me"] == c.repostedByMe
    ensures var d := c.ToJson().obj;
      "reply_count" in d && "repost_count" in d && "like_count" in d
      && d["reply_count"] == c.replyCount && d["repost_count"] == c.repostCount && d["like_count"] == c.likeCount
  {
    CleanPostKeys(c);
  }

  /** `d.get(key, {})`, replaced by `{}` when it is not a dict. */
  function DictAt(d: Dict, key: string): (r: Dict)
    ensures key in d && d[key].JObj? ==> r == d[key].obj
    ensures !(key in d && d[key].JObj?) ==> r == map[]
  {
    if key in d && d[key].JObj? then d[key].obj else map[]
  }

  /** `node.get("replies", [])`, replaced by `[]` when it is not a list. */
  function ReplyList(node: Dict): seq<Json>
  {
    if "replies" in node && node["replies"].JArr? then node["replies"].arr else []
  }

  /** The clean author record of a raw post. */
  function AuthorOf(post: Dict): Author
  {
    var author := DictAt(post, "author");
    Author(Get(author, "did", JStr("")), Get(author, "handle", JStr("")),
           Get(author, "displayName", JStr("")), Get(author, "avatar", JStr("")))
  }

  /** The clean post built from a raw post dict and its surviving replies. */
  function CleanOf(post: Dict, replies: seq<CleanPost>): CleanPost
  {
    var record := DictAt(post, "record");
    var viewer := DictAt(post, "viewer");
    CleanPost(
      Get(post, "uri", JStr("")), Get(post, "cid", JStr("")), AuthorOf(post),
      Get(record, "text", JStr("")), Get(record, "createdAt", JStr("")),
      MediaOf(JObj(post)),
      Get(viewer, "like", JBool(false)), Get(viewer, "repost", JBool(false)),
      Get(post, "replyCount", JNum(0)), Get(post, "repostCount", JNum(0)), Get(post, "likeCount", JNum(0)),
      replies)
  }

  /** What `_process_thread_node` returns: None stands for `{}`, returned
      when the node or its `post` is not a dict. */
  function Normalize(node: Json): Option<CleanPost>
    decreases node, 1
  {
    if !node.JObj? then None
    else
      var post := Get(node.obj, "post", EmptyObj);
      if !post.JObj? then None
      else Some(CleanOf(post.obj, NormalizeReplies(node, |ReplyList(node.obj)|)))
  }

  /** The surviving replies among the first n raw replies of a node, in order. */
  function NormalizeReplies(node: Json, n: nat): seq<CleanPost>
    requires node.JObj? && n <= |ReplyList(node.obj)|
    decreases node, 0, n
  {
    if n == 0 then []
    else
      NormalizeReplies(node, n - 1)
      + match Normalize(ReplyList(node.obj)[n - 1]) case None => [] case Some(c) => [c]
  }

  /** The dict `_process_thread_node` returns. */
  function NodeJson(node: Json): Json
  {
    match Normalize(node)
    case None => EmptyObj
    case Some(c) => c.ToJson()
  }

  /** The clean record of a raw post dict, before its replies are added. */
  method BuildCleanPost(postData: Json) returns (cleanPost: CleanPost)
    requires postData.JObj?
    ensures cleanPost == CleanOf(postData.obj, [])
  {
    var post := postData.obj;
    var author := if "author" in post then post["author"] else EmptyObj;
    if !author.JObj? {
      author := EmptyObj;
    }
    var authorClean := Author(Get(author.obj, "did", JStr("")), Get(author.obj, "handle", JStr("")),
                              Get(author.obj, "displayName", JStr("")), Get(author.obj, "avatar", JStr("")));
    var record := if "record" in post then post["record"] else EmptyObj;
    if !record.JObj? {
      record := EmptyObj;
    }
    var media := ExtractMedia(postData);
    var viewer := if "viewer" in post then post["viewer"] else EmptyObj;
    if !viewer.JObj? {
      viewer := EmptyObj;
    }
    cleanPost := CleanPost(
      Get(post, "uri", JStr("")), Get(post, "cid", JStr("")), authorClean,
      Get(record.obj, "text", JStr("")), Get(record.obj, "createdAt", JStr("")), media,
      Get(viewer.obj, "like", JBool(false)), Get(viewer.obj, "repost", JBool(false)),
      Get(post, "replyCount", JNum(0)), Get(post, "repostCount", JNum(0)), Get(post, "likeCount", JNum(0)),
      []);
  }

  /** One more raw reply: a truthy result is its normalisation, appended;
      a falsy one leaves the surviving replies as they were. */
  lemma ReplyStep(node: Json, i: nat, kept: seq<CleanPost>, replyData: Json)
    requires node.JObj? && i < |ReplyList(node.obj)|
    requires kept == NormalizeReplies(node, i)
    requires replyData == NodeJson(ReplyList(node.obj)[i])
    ensures var r := ReplyList(node.obj)[i];
      if Truthy(replyData) then
        Normalize(r).Some? && replyData == Normalize(r).value.ToJson()
        && NormalizeReplies(node, i + 1) == kept + [Normalize(r).value]
        && PostsJson(kept + [Normalize(r).value]) == PostsJson(kept) + [replyData]
      else NormalizeReplies(node, i + 1) == kept
  {
    var r := ReplyList(node.obj)[i];
    NormalizeDropped(r);
    if Truthy(replyData) {
      PostsJsonSnoc(kept, Normalize(r).value);
    }
  }

  /** One more clean post appends its dict. */
  lemma PostsJsonSnoc(posts: seq<CleanPost>, post: CleanPost)
    ensures PostsJson(posts + [post]) == PostsJson(posts) + [post.ToJson()]
  {
    assert forall k :: 0 <= k < |posts| ==> (posts + [post])[k] == posts[k];
  }

  /** `_process_thread_node`: validates the node and its post, builds the
      clean record, then normalises the replies one by one, keeping the
      truthy results, and adds `replies` only when some survived. */
  method ProcessThreadNode(node: Json) returns (clean: Json)
    ensures clean == NodeJson(node)
    decreases node
  {
    if !node.JObj? {
      return EmptyObj;
    }
    var postData := Get(node.obj, "post", EmptyObj);
    if !postData.JObj? {
      return EmptyObj;
    }
    var cleanPost := BuildCleanPost(postData);
    var replyList := if "replies" in node.obj then node.obj["replies"] else JArr([]);
    if !replyList.JArr? {
      replyList := JArr([]);
    }
    var rs := replyList.arr;
    assert rs == ReplyList(node.obj);
    var replies: seq<Json> := [];
    ghost var kept: seq<CleanPost> := [];
    for i := 0 to |rs|
      invariant kept == NormalizeReplies(node, i)
      invariant replies == PostsJson(kept)
    {
      var replyData := ProcessThreadNode(rs[i]);
      ReplyStep(node, i, kept, replyData);
      if Truthy(replyData) {
        kept := kept + [Normalize(rs[i]).value];
        replies := replies + [replyData];
      }
    }
    clean := cleanPost.ToJson();
    if replies != [] {
      clean := JObj(clean.obj["replies" := JArr(replies)]);
    }
    assert cleanPost.(replies := kept) == Normalize(node).value;
  }

  // ---------------------------------------------------------------------
  // Properties of safe_get

  /** `safe_get` gives back the default exactly when the start is not a
      dict or some step fails, and otherwise the value the last key names. */
  lemma LookupCases(obj: Json, keys: seq<string>, default: Json)
    ensures (!obj.JObj? || exists i :: 0 <= i < |keys| && !StepOk(obj, keys, i)) ==>
      Lookup(obj, keys, default) == default
    ensures obj.JObj? && (forall i :: 0 <= i < |keys| ==> StepOk(obj, keys, i)) ==>
      Walk(obj, keys).Some? && Lookup(obj, keys, default) == Walk(obj, keys).value
  {
    WalkResolves(obj, keys);
  }

  // ---------------------------------------------------------------------
  // Properties of _extract_media_from_post

  /** Every record of the image loop is an image with a non-empty string uri. */
  lemma {:induction false} ImagesFromShape(images: seq<Json>)
    ensures forall m <- ImagesFrom(images) :: m.Image? && m.uri.JStr? && m.uri.s != ""
    ensures |ImagesFrom(images)| <= |images|
  {
    if images != [] {
      ImagesFromShape(images[..|images| - 1]);
    }
  }

  /** The image loop distributes over concatenation of the list. */
  lemma {:induction false} ImagesFromAppend(a: seq<Json>, b: seq<Json>)
    ensures ImagesFrom(a + b) == ImagesFrom(a) + ImagesFrom(b)
    decreases |b|
  {
    if b == [] {
      assert a + b == a;
    } else {
      assert (a + b)[..|a + b| - 1] == a + b[..|b| - 1];
      ImagesFromAppend(a, b[..|b| - 1]);
    }
  }

  /** An entry of `embed.images` yields one image exactly when it is a dict
      with a non-empty string `fullsize`, and that record is its own. */
  lemma ImagesFromSingle(image: Json)
    ensures |ImagesFrom([image])| == 1 <==>
      image.JObj? && "fullsize" in image.obj && image.obj["fullsize"].JStr? && image.obj["fullsize"].s != ""
    ensures |ImagesFrom([image])| == 1 ==>
      ImagesFrom([image])[0] == Image(image.obj["fullsize"], Get(image.obj, "alt", JStr("")))
  {
    assert [image][..0] == [];
  }

  /** Every record of the item loop is a video or an image with a truthy uri. */
  lemma {:induction false} ItemsFromShape(items: seq<Json>)
    ensures forall m <- ItemsFrom(items) :: (m.Video? || m.Image?) && Truthy(m.uri)
  {
    if items != [] {
      ItemsFromShape(items[..|items| - 1]);
    }
  }

  /** A record the extractor may emit: a truthy uri, and for a derived
      media record the CDN URL of its ref. */
  predicate WellFormed(m: MediaItem)
  {
    Truthy(m.uri) && (m.CdnMedia? ==> m.uri == JStr(CdnThumbnailUrl(m.ref)))
  }

  /** The media object's records: videos, images and at most the CDN record. */
  lemma MediaObjShape(mediaObj: Json)
    ensures forall m <- MediaObjItems(mediaObj) :: !m.Link? && WellFormed(m)
  {
    var items := Lookup(mediaObj, ["items"], JNull);
    if items.JArr? {
      ItemsFromShape(items.arr);
    }
    var ref := Lookup(mediaObj, ["ref"], JNull);
    assert forall m <- RefItems(ref) :: !m.Link? && WellFormed(m);
  }

  /** No record after the link card is a link card, and each is well formed. */
  lemma TailShape(post: Json, embed: Json)
    ensures forall m <- TailItems(post, embed) :: !m.Link? && WellFormed(m)
  {
    var mediaObj := Lookup(embed, ["media"], JNull);
    MediaObjShape(mediaObj);
    var v := VideoEntry(Lookup(embed, ["video"], JNull));
    var p := PlaylistItems(Lookup(embed, ["playlist"], JNull));
    var e := EmbedViewItems(Lookup(post, ["embedView", "video"], JNull));
    assert forall m <- v :: !m.Link? && WellFormed(m);
    assert forall m <- p :: !m.Link? && WellFormed(m);
    assert forall m <- e :: !m.Link? && WellFormed(m);
    assert TailItems(post, embed) == v + MediaObjItems(mediaObj) + p + e;
  }

  /** No record the extractor emits has a falsy uri, and a derived media
      record's uri is the CDN URL built from its ref. */
  lemma MediaWellFormed(post: Json)
    ensures forall m <- MediaOf(post) :: WellFormed(m)
  {
    if post.JObj? && EmbedOf(post.obj).JObj? {
      var embed := EmbedOf(post.obj);
      var images := Lookup(embed, ["images"], JNull);
      if images.JArr? {
        ImagesFromShape(images.arr);
      }
      TailShape(post, embed);
      assert forall m <- LinkItems(Lookup(embed, ["external"], JNull)) :: WellFormed(m);
    }
  }

  /** Link cards can only come from the middle part of a three-part list. */
  lemma LinkOnlyInMiddle(before: seq<MediaItem>, link: seq<MediaItem>, after: seq<MediaItem>)
    requires forall m <- before :: !m.Link?
    requires forall m <- after :: !m.Link?
    requires |link| <= 1
    ensures var ms := before + link + after;
      forall i, j :: 0 <= i < j < |ms| ==> !(ms[i].Link? && ms[j].Link?)
  {
    var ms := before + link + after;
    forall i, j | 0 <= i < j < |ms| ensures !(ms[i].Link? && ms[j].Link?) {
      if i < |before| {
        assert ms[i] == before[i];
      } else if j >= |before| + |link| {
        assert ms[j] == after[j - |before| - |link|];
      }
    }
  }

  /** At most one link card is emitted. */
  lemma AtMostOneLink(post: Json)
    ensures forall i, j :: 0 <= i < j < |MediaOf(post)| ==> !(MediaOf(post)[i].Link? && MediaOf(post)[j].Link?)
  {
    if post.JObj? && EmbedOf(post.obj).JObj? {
      var embed := EmbedOf(post.obj);
      var images := Lookup(embed, ["images"], JNull);
      if images.JArr? {
        ImagesFromShape(images.arr);
      }
      TailShape(post, embed);
      LinkOnlyInMiddle(ImageItemsOf(embed), LinkItems(Lookup(embed, ["external"], JNull)), TailItems(post, embed));
    }
  }

  /** A post's own `embed` key decides, whatever its value: a non-dict
      there hides a fully populated `record.embed`. */
  lemma EmbedKeyShadowsRecord(post: Dict)
    requires "embed" in post && !post["embed"].JObj?
    ensures MediaOf(JObj(post)) == []
  {
  }

  /** Without an `embed` key, `record.embed` is probed: it is the embed
      when `record` is a dict holding `embed`, and there is none otherwise. */
  lemma RecordEmbedFallback(post: Dict)
    requires "embed" !in post
    ensures "record" in post && post["record"].JObj? && "embed" in post["record"].obj ==>
      EmbedOf(post) == post["record"].obj["embed"]
    ensures !("record" in post && post["record"].JObj? && "embed" in post["record"].obj) ==>
      EmbedOf(post) == JNull
  {
    assert ["record", "embed"][1..] == ["embed"];
    assert ["embed"][1..] == [];
    if "record" in post {
      assert Walk(JObj(post), ["record", "embed"]) == Walk(post["record"], ["embed"]);
    }
  }

  /** `safe_get` with one key is `.get` on a dict and the default otherwise. */
  lemma LookupOne(obj: Json, key: string, default: Json)
    ensures Lookup(obj, [key], default) == if obj.JObj? && key in obj.obj then obj.obj[key] else default
  {
    assert [key][0] == key && [key][1..] == [];
    if obj.JObj? && key in obj.obj {
      assert Walk(obj, [key]) == Walk(obj.obj[key], []);
    }
  }

  /** Appending an entry to `embed.images` appends its record, if any. */
  lemma ImagesFromSnoc(images: seq<Json>, image: Json)
    ensures ImagesFrom(images + [image]) == ImagesFrom(images) + ImageEntry(image)
  {
    assert (images + [image])[..|images|] == images;
  }

  /** The image loop keeps duplicates, skips non-dict entries and
      entries whose `fullsize` is empty, and defaults `alt` to "". */
  lemma ImagesExample()
    ensures
      var img := JObj(map["fullsize" := JStr("f"), "alt" := JStr("a")]);
      ImagesFrom([img, JNum(1), JObj(map["fullsize" := JStr("")]), img, JObj(map["fullsize" := JStr("g")])])
        == [Image(JStr("f"), JStr("a")), Image(JStr("f"), JStr("a")), Image(JStr("g"), JStr(""))]
  {
    var img := JObj(map["fullsize" := JStr("f"), "alt" := JStr("a")]);
    var empty := JObj(map["fullsize" := JStr("")]);
    var other := JObj(map["fullsize" := JStr("g")]);
    LookupOne(img, "fullsize", JNull);
    LookupOne(img, "alt", JStr(""));
    LookupOne(empty, "fullsize", JNull);
    LookupOne(other, "fullsize", JNull);
    LookupOne(other, "alt", JStr(""));
    ImagesFromSnoc([], img);
    ImagesFromSnoc([img], JNum(1));
    ImagesFromSnoc([img, JNum(1)], empty);
    ImagesFromSnoc([img, JNum(1), empty], img);
    ImagesFromSnoc([img, JNum(1), empty, img], other);
    assert ImageEntry(img) == [Image(JStr("f"), JStr("a"))];
    assert ImageEntry(JNum(1)) == [] && ImageEntry(empty) == [];
    assert ImageEntry(other) == [Image(JStr("g"), JStr(""))];
    assert [] + [img] == [img] && [img] + [JNum(1)] == [img, JNum(1)];
    assert [img, JNum(1)] + [empty] == [img, JNum(1), empty];
    assert [img, JNum(1), empty] + [img] == [img, JNum(1), empty, img];
    assert [img, JNum(1), empty, img] + [other] == [img, JNum(1), empty, img, other];
  }

  /** A video dict with only a non-empty `currentSrc` yields that URL. */
  lemma VideoFromSource(src: string)
    requires src != ""
    ensures VideoEntry(JObj(map["currentSrc" := JStr(src)])) == [Video(JStr(src), JStr(""))]
  {
    var video := JObj(map["currentSrc" := JStr(src)]);
    LookupOne(video, "url", JNull);
    LookupOne(video, "currentSrc", JStr(""));
    LookupOne(video, "poster", JStr(""));
  }

  /** An item with a video `url` and an image `fullsize` yields the video, then the image. */
  lemma ItemVideoThenImage(item: Dict, url: string, full: string)
    requires url != "" && full != ""
    requires "video" in item && item["video"] == JObj(map["url" := JStr(url)])
    requires "image" in item && item["image"] == JObj(map["fullsize" := JStr(full)])
    ensures ItemsFrom([JObj(item)]) == [Video(JStr(url), JStr("")), Image(JStr(full), JStr(""))]
  {
    var video, image := item["video"], item["image"];
    LookupOne(JObj(item), "video", JNull);
    LookupOne(JObj(item), "image", JNull);
    LookupOne(video, "url", JNull);
    LookupOne(video, "poster", JStr(""));
    assert VideoEntry(video) == [Video(JStr(url), JStr(""))];
    LookupOne(image, "url", JNull);
    LookupOne(image, "fullsize", JStr(""));
    LookupOne(image, "alt", JStr(""));
    assert ItemImageEntry(image) == [Image(JStr(full), JStr(""))];
    assert ItemsFrom([JObj(item)]) == ItemEntry(JObj(item)) by {
      assert [JObj(item)][..0] == [];
    }
  }

  /** Under `embed.media`: its video first, then each item's video before
      that item's image, then the CDN record derived from `ref`. */
  lemma MediaObjExample(media: Dict, item: Dict, src: string, url: string, full: string, link: string)
    requires src != "" && url != "" && full != ""
    requires "video" in media && media["video"] == JObj(map["currentSrc" := JStr(src)])
    requires "items" in media && media["items"] == JArr([JObj(item)])
    requires "ref" in media && media["ref"] == JObj(map["$link" := JStr(link)])
    requires "video" in item && item["video"] == JObj(map["url" := JStr(url)])
    requires "image" in item && item["image"] == JObj(map["fullsize" := JStr(full)])
    ensures MediaObjItems(JObj(media)) == [
        Video(JStr(src), JStr("")), Video(JStr(url), JStr("")), Image(JStr(full), JStr("")),
        CdnMedia(JStr("https://cdn.bsky.app/img/feed_thumbnail/plain/" + link + "@jpeg"), link)]
  {
    var m := JObj(media);
    LookupOne(m, "video", JNull);
    LookupOne(m, "items", JNull);
    LookupOne(m, "ref", JNull);
    VideoFromSource(src);
    ItemVideoThenImage(item, url, full);
    assert RefItems(media["ref"]) == [CdnMedia(JStr(CdnThumbnailUrl(link)), link)];
  }

  /** For every post whose embed is a dict, the records come probe by
      probe in the source's order: the images, the link card, the embed's
      video, the media object's records, the HLS playlist, then the
      `embedView` video. */
  lemma MediaOrder(post: Dict, embed: Dict)
    requires EmbedOf(post) == JObj(embed)
    ensures MediaOf(JObj(post)) ==
      (if "images" in embed && embed["images"].JArr? then ImagesFrom(embed["images"].arr) else [])
      + LinkItems(Get(embed, "external", JNull))
      + (VideoEntry(Get(embed, "video", JNull))
         + MediaObjItems(Get(embed, "media", JNull))
         + PlaylistItems(Get(embed, "playlist", JNull))
         + EmbedViewItems(Lookup(JObj(post), ["embedView", "video"], JNull)))
  {
    var e := JObj(embed);
    LookupOne(e, "images", JNull);
    LookupOne(e, "external", JNull);
    TailProbes(post, embed);
  }

  /** The probes after the link card, each read with one `.get`. */
  lemma TailProbes(post: Dict, embed: Dict)
    ensures TailItems(JObj(post), JObj(embed)) ==
      VideoEntry(Get(embed, "video", JNull))
      + MediaObjItems(Get(embed, "media", JNull))
      + PlaylistItems(Get(embed, "playlist", JNull))
      + EmbedViewItems(Lookup(JObj(post), ["embedView", "video"], JNull))
  {
    var e := JObj(embed);
    LookupOne(e, "video", JNull);
    LookupOne(e, "media", JNull);
    LookupOne(e, "playlist", JNull);
  }

  /** For every media object: its own video, then its items in list order
      (when `items` is a list), then the CDN record of its `ref`. */
  lemma MediaObjOrder(media: Dict)
    ensures MediaObjItems(JObj(media)) ==
      VideoEntry(Get(media, "video", JNull))
      + (if "items" in media && media["items"].JArr? then ItemsFrom(media["items"].arr) else [])
      + RefItems(Get(media, "ref", JNull))
  {
    var m := JObj(media);
    LookupOne(m, "video", JNull);
    LookupOne(m, "items", JNull);
    LookupOne(m, "ref", JNull);
  }

  /** For every video dict: no record exactly when both `url` and
      `currentSrc` are falsy; otherwise one record whose uri is `url` when
      truthy, else `currentSrc`, and whose poster is `poster` (default ""). */
  lemma VideoCases(video: Dict)
    ensures var url, src := Get(video, "url", JNull), Get(video, "currentSrc", JStr(""));
      (VideoEntry(JObj(video)) == [] <==> !Truthy(url) && !Truthy(src))
    ensures var url, src, poster := Get(video, "url", JNull), Get(video, "currentSrc", JStr("")), Get(video, "poster", JStr(""));
      (Truthy(url) ==> VideoEntry(JObj(video)) == [Video(url, poster)])
      && (!Truthy(url) && Truthy(src) ==> VideoEntry(JObj(video)) == [Video(src, poster)])
  {
    var v := JObj(video);
    LookupOne(v, "url", JNull);
    LookupOne(v, "currentSrc", JStr(""));
    LookupOne(v, "poster", JStr(""));
  }

  /** For every `media.items` entry that is a dict: its video record, if
      any, then its image record, if any. */
  lemma ItemCases(item: Dict)
    ensures ItemEntry(JObj(item)) == VideoEntry(Get(item, "video", JNull)) + ItemImageEntry(Get(item, "image", JNull))
  {
    LookupOne(JObj(item), "video", JNull);
    LookupOne(JObj(item), "image", JNull);
  }

  /** For every item image dict: no record exactly when both `url` and
      `fullsize` are falsy; otherwise one whose uri is `url` when truthy,
      else `fullsize`, and whose alt is `alt` (default ""). */
  lemma ItemImageCases(image: Dict)
    ensures var url, full := Get(image, "url", JNull), Get(image, "fullsize", JStr(""));
      (ItemImageEntry(JObj(image)) == [] <==> !Truthy(url) && !Truthy(full))
    ensures var url, full, alt := Get(image, "url", JNull), Get(image, "fullsize", JStr("")), Get(image, "alt", JStr(""));
      (Truthy(url) ==> ItemImageEntry(JObj(image)) == [Image(url, alt)])
      && (!Truthy(url) && Truthy(full) ==> ItemImageEntry(JObj(image)) == [Image(full, alt)])
  {
    var i := JObj(image);
    LookupOne(i, "url", JNull);
    LookupOne(i, "fullsize", JStr(""));
    LookupOne(i, "alt", JStr(""));
  }

  /** For every `embedView.video` dict: only `url` is read (no
      `currentSrc` fallback); no record when it is falsy. */
  lemma EmbedViewCases(video: Dict)
    ensures var url := Get(video, "url", JStr(""));
      EmbedViewItems(JObj(video)) == if Truthy(url) then [Video(url, Get(video, "poster", JStr("")))] else []
  {
    LookupOne(JObj(video), "url", JStr(""));
    LookupOne(JObj(video), "poster", JStr(""));
  }

  /** Images, then the link card, then the embed's video, then the HLS
      playlist, then the post's `embedView` video: one record each when
      every location holds something the extractor accepts. */
  lemma ProbeOrder(post: Dict, embed: Dict, image: Json, external: Json, video: Json, playlist: string, viewVideo: Json)
    requires "embed" in post && post["embed"] == JObj(embed)
    requires "images" in embed && embed["images"] == JArr([image])
    requires "external" in embed && embed["external"] == external
    requires "video" in embed && embed["video"] == video
    requires "media" !in embed
    requires "playlist" in embed && embed["playlist"] == JStr(playlist) && playlist != ""
    requires "embedView" in post && post["embedView"] == JObj(map["video" := viewVideo])
    requires ImageEntry(image) != [] && LinkItems(external) != [] && VideoEntry(video) != []
    requires EmbedViewItems(viewVideo) != []
    ensures var ms := MediaOf(JObj(post));
      ms == ImageEntry(image) + LinkItems(external) + VideoEntry(video) + [HlsVideo(JStr(playlist))] + EmbedViewItems(viewVideo)
      && |ms| == 5 && ms[0].Image? && ms[1].Link? && ms[2].Video? && ms[3].HlsVideo? && ms[4].Video?
  {
    HeadOrder(post, embed, image, external);
    TailOrder(post, embed, video, playlist, viewVideo);
    SingleEntries(image, external, video, viewVideo);
    FiveRecords(ImageEntry(image), LinkItems(external), VideoEntry(video), [HlsVideo(JStr(playlist))], EmbedViewItems(viewVideo));
  }

  /** The records before the tail when `embed.images` holds one image. */
  lemma HeadOrder(post: Dict, embed: Dict, image: Json, external: Json)
    requires "embed" in post && post["embed"] == JObj(embed)
    requires "images" in embed && embed["images"] == JArr([image])
    requires "external" in embed && embed["external"] == external
    ensures MediaOf(JObj(post)) == ImageEntry(image) + LinkItems(external) + TailItems(JObj(post), JObj(embed))
  {
    var e := JObj(embed);
    LookupOne(e, "images", JNull);
    assert ImageItemsOf(e) == ImageEntry(image) by {
      assert ImagesFrom([image]) == ImageEntry(image) by {
        assert [image][..0] == [];
      }
    }
    LookupOne(e, "external", JNull);
  }

  /** Five one-record lists, concatenated, give their records in order. */
  lemma FiveRecords(a: seq<MediaItem>, b: seq<MediaItem>, c: seq<MediaItem>, d: seq<MediaItem>, e: seq<MediaItem>)
    requires |a| == 1 && a[0].Image? && |b| == 1 && b[0].Link? && |c| == 1 && c[0].Video?
    requires |d| == 1 && d[0].HlsVideo? && |e| == 1 && e[0].Video?
    ensures var ms := a + b + c + d + e;
      |ms| == 5 && ms[0].Image? && ms[1].Link? && ms[2].Video? && ms[3].HlsVideo? && ms[4].Video?
  {
  }

  /** Each probe that finds something yields exactly one record of its kind. */
  lemma SingleEntries(image: Json, external: Json, video: Json, viewVideo: Json)
    requires ImageEntry(image) != [] && LinkItems(external) != [] && VideoEntry(video) != []
    requires EmbedViewItems(viewVideo) != []
    ensures |ImageEntry(image)| == 1 && ImageEntry(image)[0].Image?
    ensures |LinkItems(external)| == 1 && LinkItems(external)[0].Link?
    ensures |VideoEntry(video)| == 1 && VideoEntry(video)[0].Video?
    ensures |EmbedViewItems(viewVideo)| == 1 && EmbedViewItems(viewVideo)[0].Video?
  {
  }

  /** The records after the link card when the embed has a video, no
      media object and a playlist, and the post an `embedView` video. */
  lemma TailOrder(post: Dict, embed: Dict, video: Json, playlist: string, viewVideo: Json)
    requires "video" in embed && embed["video"] == video
    requires "media" !in embed
    requires "playlist" in embed && embed["playlist"] == JStr(playlist) && playlist != ""
    requires "embedView" in post && post["embedView"] == JObj(map["video" := viewVideo])
    ensures TailItems(JObj(post), JObj(embed)) == VideoEntry(video) + [HlsVideo(JStr(playlist))] + EmbedViewItems(viewVideo)
  {
    var e := JObj(embed);
    LookupOne(e, "video", JNull);
    LookupOne(e, "media", JNull);
    LookupOne(e, "playlist", JNull);
    var view := JObj(map["video" := viewVideo]);
    assert Walk(JObj(post), ["embedView", "video"]) == Walk(view, ["video"]) by {
      assert ["embedView", "video"][1..] == ["video"];
    }
    LookupOne(view, "video", JNull);
  }

  // ---------------------------------------------------------------------
  // Properties of _process_thread_node

  /** A node that survives normalisation: a dict whose `post` (default
      `{}`) is a dict. */
  predicate Survives(node: Json)
  {
    node.JObj? && Get(node.obj, "post", EmptyObj).JObj?
  }

  /** The node is dropped (`{}`) exactly when it, or its `post`, is not a
      dict; otherwise the dict returned is truthy, and a node without a
      `post` key normalises with every default. */
  lemma NormalizeDropped(node: Json)
    ensures Normalize(node).Some? <==> Survives(node)
    ensures Survives(node) <==> node.JObj? && ("post" in node.obj ==> node.obj["post"].JObj?)
    ensures Truthy(NodeJson(node)) <==> Survives(node)
  {
  }

  /** A node whose `post` is missing or empty normalises with every
      default: empty strings, zero counts, False viewer flags, no media. */
  lemma NormalizeDefaults(node: Json)
    requires node.JObj? && ("post" !in node.obj || node.obj["post"] == EmptyObj)
    ensures Normalize(node).Some?
    ensures var c := Normalize(node).value;
      c.(replies := []) == CleanPost(
        JStr(""), JStr(""), Author(JStr(""), JStr(""), JStr(""), JStr("")), JStr(""), JStr(""), [],
        JBool(false), JBool(false), JNum(0), JNum(0), JNum(0), [])
  {
    assert Lookup(EmptyObj, ["record", "embed"], JNull) == JNull;
    assert MediaOf(EmptyObj) == [];
  }

  /** The raw positions of the replies that survive among the first n. */
  ghost function Kept(rs: seq<Json>, n: nat): seq<nat>
    requires n <= |rs|
  {
    if n == 0 then []
    else Kept(rs, n - 1) + (if Survives(rs[n - 1]) then [n - 1] else [])
  }

  /** The replies kept are exactly the raw replies that survive, each the
      normalisation of its own raw position, in increasing order: nothing
      is reordered, and a reply is dropped iff it normalises to `{}`. */
  lemma KeptInOrder(node: Json, n: nat)
    requires node.JObj? && n <= |ReplyList(node.obj)|
    ensures var ks, cs, rs := Kept(ReplyList(node.obj), n), NormalizeReplies(node, n), ReplyList(node.obj);
      |ks| == |cs|
      && (forall k :: 0 <= k < |ks| ==> ks[k] < n && Survives(rs[ks[k]]) && Normalize(rs[ks[k]]) == Some(cs[k]))
      && (forall k, l :: 0 <= k < l < |ks| ==> ks[k] < ks[l])
      && (forall j :: 0 <= j < n && Survives(rs[j]) ==> j in ks)
  {
    KeptPositions(ReplyList(node.obj), n);
    KeptNormalized(node, n);
  }

  /** The kept positions are the surviving ones below n, in increasing order. */
  lemma {:induction false} KeptPositions(rs: seq<Json>, n: nat)
    requires n <= |rs|
    ensures var ks := Kept(rs, n);
      (forall k :: 0 <= k < |ks| ==> ks[k] < n && Survives(rs[ks[k]]))
      && (forall k, l :: 0 <= k < l < |ks| ==> ks[k] < ks[l])
      && (forall j :: 0 <= j < n && Survives(rs[j]) ==> j in ks)
  {
    if n > 0 {
      KeptPositions(rs, n - 1);
      var ks0 := Kept(rs, n - 1);
      assert forall k :: 0 <= k < |ks0| ==> ks0[k] < n - 1 && Survives(rs[ks0[k]]);
      if Survives(rs[n - 1]) {
        var ks := ks0 + [n - 1];
        assert Kept(rs, n) == ks;
        forall k | 0 <= k < |ks| ensures ks[k] < n && Survives(rs[ks[k]]) {
          if k < |ks0| {
            assert ks[k] == ks0[k] && ks0[k] < n - 1 && Survives(rs[ks0[k]]);
          } else {
            assert ks[k] == n - 1;
          }
        }
        forall k, l | 0 <= k < l < |ks| ensures ks[k] < ks[l] {
          assert ks[k] == ks0[k];
          if l < |ks0| { assert ks[l] == ks0[l]; }
        }
        forall j | 0 <= j < n && Survives(rs[j]) ensures j in ks {
          if j < n - 1 { assert j in ks0; } else { assert ks[|ks0|] == j; }
        }
      } else {
        assert Kept(rs, n) == ks0;
        forall j | 0 <= j < n && Survives(rs[j]) ensures j in ks0 {
          assert j < n - 1;
        }
      }
    }
  }

  /** The kept positions and the normalised replies correspond one for one. */
  lemma {:induction false} KeptNormalized(node: Json, n: nat)
    requires node.JObj? && n <= |ReplyList(node.obj)|
    ensures Paired(ReplyList(node.obj), Kept(ReplyList(node.obj), n), NormalizeReplies(node, n))
  {
    if n > 0 {
      KeptNormalized(node, n - 1);
      KeptStep(node, n);
    }
  }

  /** One more raw reply keeps the kept positions and the normalised
      replies paired. */
  lemma KeptStep(node: Json, n: nat)
    requires node.JObj? && 0 < n <= |ReplyList(node.obj)|
    requires Paired(ReplyList(node.obj), Kept(ReplyList(node.obj), n - 1), NormalizeReplies(node, n - 1))
    ensures Paired(ReplyList(node.obj), Kept(ReplyList(node.obj), n), NormalizeReplies(node, n))
  {
    var rs := ReplyList(node.obj);
    var r := rs[n - 1];
    var ks0, cs0 := Kept(rs, n - 1), NormalizeReplies(node, n - 1);
    NormalizeStep(node, n);
    KeptSnoc(rs, n);
    PairedSnoc(rs, ks0, cs0, n - 1, Normalize(r));
  }

  /** Position n - 1 is kept exactly when its reply survives. */
  lemma KeptSnoc(rs: seq<Json>, n: nat)
    requires 0 < n <= |rs|
    ensures Kept(rs, n) == Kept(rs, n - 1) + if Survives(rs[n - 1]) then [n - 1] else []
  {
  }

  /** Position ks[k] of rs normalises to cs[k], for every k. */
  ghost predicate Paired(rs: seq<Json>, ks: seq<nat>, cs: seq<CleanPost>)
  {
    |ks| == |cs| && forall k :: 0 <= k < |ks| ==> ks[k] < |rs| && Normalize(rs[ks[k]]) == Some(cs[k])
  }

  /** Adding one more raw position and its normalisation keeps the
      two lists paired. */
  lemma PairedSnoc(rs: seq<Json>, ks: seq<nat>, cs: seq<CleanPost>, j: nat, o: Option<CleanPost>)
    requires Paired(rs, ks, cs)
    requires j < |rs| && Normalize(rs[j]) == o
    ensures Paired(rs, ks + (if o.Some? then [j] else []), cs + (if o.Some? then [o.value] else []))
  {
    if o.Some? {
      var ks', cs' := ks + [j], cs + [o.value];
      forall k | 0 <= k < |ks'| ensures ks'[k] < |rs| && Normalize(rs[ks'[k]]) == Some(cs'[k]) {
        if k < |ks| {
          assert ks'[k] == ks[k] && cs'[k] == cs[k];
        }
      }
    } else {
      assert ks + [] == ks && cs + [] == cs;
    }
  }

  /** One more raw reply adds its normalisation exactly when it survives. */
  lemma NormalizeStep(node: Json, n: nat)
    requires node.JObj? && 0 < n <= |ReplyList(node.obj)|
    ensures var r := ReplyList(node.obj)[n - 1];
      Normalize(r).Some? <==> Survives(r)
    ensures var r := ReplyList(node.obj)[n - 1];
      NormalizeReplies(node, n) == NormalizeReplies(node, n - 1) + if Survives(r) then [Normalize(r).value] else []
  {
  }

  /** The `replies` key is present exactly when at least one raw reply survives. */
  lemma RepliesKeyPresent(node: Json)
    requires Survives(node)
    ensures var rs := ReplyList(node.obj);
      "replies" in NodeJson(node).obj <==> exists j :: 0 <= j < |rs| && Survives(rs[j])
  {
    var rs := ReplyList(node.obj);
    KeptInOrder(node, |rs|);
    var c := Normalize(node).value;
    assert c.replies == NormalizeReplies(node, |rs|);
    assert NodeJson(node) == c.ToJson();
    if exists j :: 0 <= j < |rs| && Survives(rs[j]) {
      var j :| 0 <= j < |rs| && Survives(rs[j]);
      assert j in Kept(ReplyList(node.obj), |rs|);
    }
    var ks := Kept(ReplyList(node.obj), |rs|);
    if |ks| > 0 {
      assert Survives(rs[ks[0]]);
    }
  }

  /** When every raw reply survives, all of them are kept, one for one, in order. */
  lemma AllRepliesKept(node: Json)
    requires Survives(node)
    requires forall j :: 0 <= j < |ReplyList(node.obj)| ==> Survives(ReplyList(node.obj)[j])
    ensures var rs, cs := ReplyList(node.obj), Normalize(node).value.replies;
      |cs| == |rs| && forall j :: 0 <= j < |rs| ==> Some(cs[j]) == Normalize(rs[j])
  {
    var rs := ReplyList(node.obj);
    var ks := Kept(ReplyList(node.obj), |rs|);
    KeptInOrder(node, |rs|);
    KeptAll(node, |rs|);
  }

  lemma {:induction false} KeptAll(node: Json, n: nat)
    requires node.JObj? && n <= |ReplyList(node.obj)|
    requires forall j :: 0 <= j < n ==> Survives(ReplyList(node.obj)[j])
    ensures Kept(ReplyList(node.obj), n) == seq(n, j => j)
  {
    if n > 0 {
      KeptAll(node, n - 1);
    }
  }
}
