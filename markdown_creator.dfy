/** src/bsky2llm/markdown_creator.py: flattening a raw post into the
    placeholder dictionary of a format template, and the preorder walk
    that renders a raw thread with dotted indices, a filter, a depth
    limit and a fixed fallback fragment when a placeholder is missing. */
module MarkdownCreator {
  import opened Wrappers
  import opened Strings
  import opened Json

  // ---------------------------------------------------------------------
  // _extract_post_data

  /** The `embedType` derived from an embed's `$type`: the second
      `#`-separated segment of a string holding `#`, "" otherwise. A list
      holding "#" or a dict with key "#" passes the `in` test and then has
      no `split` (AttributeError); None, a bool or a number cannot be
      searched with `in` (TypeError). None stands for the raised exception. */
  function EmbedTypeOf(t: Json): (r: Option<string>)
    ensures r.None? <==> (t.JNull? || t.JBool? || t.JNum? || (t.JArr? && JStr("#") in t.arr) || (t.JObj? && "#" in t.obj))
    ensures t.JStr? && !Contains(t.s, "#") ==> r == Some("")
    ensures r.Some? && r.value != "" ==> t.JStr? && Contains(t.s, "#")
  {
    match t
    case JStr(s) => Some(if Contains(s, "#") then Before(After(s, "#"), "#") else "")
    case JArr(a) => if JStr("#") in a then None else Some("")
    case JObj(m) => if "#" in m then None else Some("")
    case _ => None
  }

  /** The author keys, added only when `author` is a dict. */
  datatype AuthorData = AuthorData(did: Json, handle: Json, displayName: Json, avatar: Json)

  /** The record keys, added only when `record` is a dict; `facets` is
      kept only when it is a non-empty list, which `hasFacets` reports. */
  datatype RecordData = RecordData(text: Json, createdAt: Json, facets: Option<Json>)

  /** `quoteUri` and `quoteText`. */
  datatype QuoteData = QuoteData(uri: Json, text: Json)

  /** `externalUrl`, `externalTitle`, `externalDescription`, `externalThumb`. */
  datatype ExternalData = ExternalData(url: Json, title: Json, description: Json, thumb: Json)

  /** The embed branch `embedType` selects and the keys it adds besides
      its flag: the images when they are a non-empty list, the quote when
      `record` is a dict, the link when `external` is a dict. */
  datatype EmbedBranch =
    | NoBranch
    | ImageBranch(images: Option<seq<Json>>)
    | QuoteBranch(quote: Option<QuoteData>)
    | ExternalBranch(external: Option<ExternalData>)

  datatype EmbedData = EmbedData(embedType: string, branch: EmbedBranch)

  /** The placeholder dictionary of one post, key group by key group. */
  datatype PostData = PostData(
    uri: Json, cid: Json,
    author: Option<AuthorData>,
    record: Option<RecordData>,
    replyCount: Json, repostCount: Json, likeCount: Json, indexedAt: Json,
    embed: Option<EmbedData>)
  {
    /** The dict `_extract_post_data` returns. */
    function ToDict(): Dict
    {
      var ids := map["uri" := uri, "cid" := cid];
      var authorKeys := match author
        case None => map[]
        case Some(a) => map["did" := a.did, "handle" := a.handle, "displayName" := a.displayName, "avatar" := a.avatar];
      var recordKeys := match record
        case None => map[]
        case Some(r) =>
          var keys := map["text" := r.text, "createdAt" := r.createdAt, "hasFacets" := JBool(r.facets.Some?)];
          if r.facets.Some? then keys["facets" := r.facets.value] else keys;
      var counts := map["replyCount" := replyCount, "repostCount" := repostCount, "likeCount" := likeCount, "indexedAt" := indexedAt];
      var embedKeys := match embed
        case None => map[]
        case Some(e) => map["embedType" := JStr(e.embedType)] + BranchKeys(e.branch);
      ids + authorKeys + recordKeys + counts + embedKeys
    }
  }

  /** The keys an embed branch adds. */
  function BranchKeys(b: EmbedBranch): Dict
  {
    match b
    case NoBranch => map[]
    case ImageBranch(images) =>
      if images.None? then map["hasImage" := JBool(true)]
      else map["hasImage" := JBool(true), "imageCount" := JNum(|images.value|), "images" := JArr(images.value)]
    case QuoteBranch(quote) =>
      if quote.None? then map["hasQuote" := JBool(true)]
      else map["hasQuote" := JBool(true), "quoteUri" := quote.value.uri, "quoteText" := quote.value.text]
    case ExternalBranch(external) =>
      if external.None? then map["hasExternal" := JBool(true)]
      else map["hasExternal" := JBool(true), "externalUrl" := external.value.url,
               "externalTitle" := external.value.title, "externalDescription" := external.value.description,
               "externalThumb" := external.value.thumb]
  }

  /** A non-empty list, the test `isinstance(x, list) and x`. */
  predicate NonEmptyList(j: Json)
  {
    j.JArr? && j.arr != []
  }

  /** The author keys of a dict `author`: `displayName` falls back to
      `handle` when absent, and both to "". */
  function AuthorOf(author: Dict): AuthorData
  {
    AuthorData(Get(author, "did", JStr("")), Get(author, "handle", JStr("")),
               Get(author, "displayName", Get(author, "handle", JStr(""))), Get(author, "avatar", JStr("")))
  }

  /** The record keys of a dict `record`. */
  function RecordOf(record: Dict): RecordData
  {
    var facets := Get(record, "facets", JArr([]));
    RecordData(Get(record, "text", JStr("")), Get(record, "createdAt", JStr("")),
               if NonEmptyList(facets) then Some(facets) else None)
  }

  /** The embed keys of a dict `embed`: `embedType`, then the first branch
      whose keyword occurs in it (images, record, external). A quoted
      record whose `value` is not a dict makes `.get` raise (None). */
  function EmbedOf(embed: Dict): Option<EmbedData>
  {
    match EmbedTypeOf(Get(embed, "$type", JStr("")))
    case None => None
    case Some(et) =>
      if Contains(et, "images") then
        var images := Get(embed, "images", JArr([]));
        Some(EmbedData(et, ImageBranch(if NonEmptyList(images) then Some(images.arr) else None)))
      else if Contains(et, "record") then
        var quoted := Get(embed, "record", EmptyObj);
        if !quoted.JObj? then Some(EmbedData(et, QuoteBranch(None)))
        else
          var value := Get(quoted.obj, "value", EmptyObj);
          if !value.JObj? then None
          else Some(EmbedData(et, QuoteBranch(Some(QuoteData(Get(quoted.obj, "uri", JStr("")), Get(value.obj, "text", JStr("")))))))
      else if Contains(et, "external") then
        var external := Get(embed, "external", EmptyObj);
        if !external.JObj? then Some(EmbedData(et, ExternalBranch(None)))
        else Some(EmbedData(et, ExternalBranch(Some(ExternalData(
          Get(external.obj, "uri", JStr("")), Get(external.obj, "title", JStr("")),
          Get(external.obj, "description", JStr("")), Get(external.obj, "thumb", JStr("")))))))
      else Some(EmbedData(et, NoBranch))
  }

  /** The key groups of a dict post; None when an exception escapes. */
  function Flatten(post: Dict): Option<PostData>
  {
    var author := Get(post, "author", EmptyObj);
    var record := Get(post, "record", EmptyObj);
    var embed := Get(post, "embed", EmptyObj);
    var data := PostData(
      Get(post, "uri", JStr("")), Get(post, "cid", JStr("")),
      if author.JObj? then Some(AuthorOf(author.obj)) else None,
      if record.JObj? then Some(RecordOf(record.obj)) else None,
      Get(post, "replyCount", JNum(0)), Get(post, "repostCount", JNum(0)),
      Get(post, "likeCount", JNum(0)), Get(post, "indexedAt", JStr("")),
      None);
    if !embed.JObj? then Some(data)
    else
      match EmbedOf(embed.obj)
      case None => None
      case Some(e) => Some(data.(embed := Some(e)))
  }

  /** `_extract_post_data`: `{}` for a non-dict post, otherwise the flat
      placeholder dictionary; None when an exception escapes. */
  function ExtractPostData(post: Json): Option<Dict>
  {
    if !post.JObj? then Some(map[])
    else
      match Flatten(post.obj)
      case None => None
      case Some(data) => Some(data.ToDict())
  }

  // ---------------------------------------------------------------------
  // str.format with keyword arguments only

  /** What `format_str.format(**fields)` does: a text, a KeyError naming
      the first missing placeholder, or another error (ValueError for an
      unmatched brace, IndexError for a positional field). */
  datatype FormatOutcome = Formatted(text: string) | MissingKey(key: string) | FormatError

  /** Literal text before the rest of the rendering. */
  function Prepend(s: string, o: FormatOutcome): (r: FormatOutcome)
    ensures o.Formatted? <==> r.Formatted?
    ensures o.Formatted? ==> r.text == s + o.text
    ensures !o.Formatted? ==> r == o
  {
    match o
    case Formatted(t) => Formatted(s + t)
    case _ => o
  }

  /** All characters are decimal digits. */
  predicate AllDigits(s: string)
  {
    forall k :: 0 <= k < |s| ==> '0' <= s[k] <= '9'
  }

  /** A keyword field name the model handles: non-empty, not a positional
      index, and free of the characters that open a conversion, a format
      spec, an attribute, an index or a nested field. */
  predicate KeywordName(name: string)
  {
    name != [] && !AllDigits(name)
    && forall k :: 0 <= k < |name| ==> name[k] !in {'{', '!', ':', '.', '['}
  }

  /** `fmt.format(**fields)`, scanned left to right: `{{` and `}}` are
      escaped braces, `{name}` is replaced by `str(fields[name])`, a lone
      `}` or an unclosed `{` is a ValueError, an empty or numeric name an
      IndexError, and the first absent name a KeyError. */
  function Format(fmt: string, fields: Dict): FormatOutcome
    decreases |fmt|
  {
    if fmt == [] then Formatted("")
    else if fmt[0] == '{' then
      if |fmt| >= 2 && fmt[1] == '{' then Prepend("{", Format(fmt[2..], fields))
      else
        match IndexOf(fmt[1..], "}")
        case None => FormatError
        case Some(k) =>
          var name := fmt[1..k + 1];
          if !KeywordName(name) then FormatError
          else if name !in fields then MissingKey(name)
          else Prepend(PyStr(fields[name]), Format(fmt[k + 2..], fields))
    else if fmt[0] == '}' then
      if |fmt| >= 2 && fmt[1] == '}' then Prepend("}", Format(fmt[2..], fields))
      else FormatError
    else Prepend([fmt[0]], Format(fmt[1..], fields))
  }

  // ---------------------------------------------------------------------
  // _process_thread_node and thread_to_markdown

  /** The keyword arguments of `thread_to_markdown` that shape the walk
      (`process_media` is fixed to False). */
  datatype RenderOptions = RenderOptions(
    includeReplies: bool,
    maxDepth: int,
    filter: Option<Dict -> bool>,
    includeIndices: bool)

  /** The default template `"**{displayName}** (@{handle}):\n{text}\n\n"`. */
  const DefaultFormat: string := "**{displayName}** (@{handle}):\n{text}\n\n"

  /** `[1] * n`. */
  function Ones(n: nat): (r: seq<int>)
    ensures |r| == n && forall k :: 0 <= k < n ==> r[k] == 1
  {
    seq(n, _ => 1)
  }

  /** The index path of the reply at raw position i: the parent's path,
      extended with ones up to length depth + 2 if it is too short, with
      entry depth + 1 overwritten by i + 1. */
  function ChildIndex(index: seq<int>, depth: nat, i: nat): (r: seq<int>)
    ensures |r| == if |index| <= depth + 1 then depth + 2 else |index|
    ensures r[depth + 1] == i + 1
    ensures forall k :: 0 <= k < |r| && k != depth + 1 ==> r[k] == (if k < |index| then index[k] else 1)
  {
    var extended := if |index| <= depth + 1 then index + Ones(depth + 1 - |index| + 1) else index;
    extended[depth + 1 := i + 1]
  }

  /** The placeholder dictionary with the index fields added when asked. */
  function WithIndex(postData: Dict, includeIndices: bool, index: seq<int>, depth: nat): Dict
  {
    if includeIndices
    then postData["index" := JStr(JoinInts(index))]["depth" := JNum(depth)]["indent" := JStr(Indent(depth))]
    else postData
  }

  /** The fragment written when the template names a missing key. */
  function Fallback(postData: Dict, includeIndices: bool): string
  {
    var body := "**" + (PyStr(Get(postData, "displayName", JStr(""))) + ("** (@" + (PyStr(Get(postData, "handle", JStr("")))
      + ("):\n" + (PyStr(Get(postData, "text", JStr(""))) + "\n\n")))));
    if includeIndices then "[" + PyStr(Get(postData, "index", JStr(""))) + "] " + body else body
  }

  /** Whether the walk descends below a node at this depth. */
  predicate VisitsReplies(opts: RenderOptions, depth: nat)
  {
    opts.includeReplies && (opts.maxDepth < 0 || depth < opts.maxDepth)
  }

  /** `node.get("replies", [])` when it is a list; nothing to visit otherwise. */
  function ReplyNodes(node: Dict): seq<Json>
  {
    if "replies" in node && node["replies"].JArr? then node["replies"].arr else []
  }

  /** The fragment a node writes itself (or none), and whether its
      replies are visited: the filter and a format error stop both. */
  datatype Own = Own(fragments: seq<string>, descend: bool)

  /** What a valid node contributes before its replies, given its post. */
  function OwnFragment(post: Dict, fmt: string, depth: nat, opts: RenderOptions, index: seq<int>): Option<Own>
  {
    match ExtractPostData(JObj(post))
    case None => None
    case Some(postData) =>
      if opts.filter.Some? && !opts.filter.value(postData) then Some(Own([], false))
      else
        var fields := WithIndex(postData, opts.includeIndices, index, depth);
        match Format(fmt, fields)
        case Formatted(text) => Some(Own([text], true))
        case MissingKey(_) => Some(Own([Fallback(fields, opts.includeIndices)], true))
        case FormatError => Some(Own([], false))
  }

  /** What `_process_thread_node` returns for a node, in preorder; None
      when an exception escapes. `currentIndex` None is the root call. */
  function NodeFragments(node: Json, fmt: string, depth: nat, opts: RenderOptions, currentIndex: Option<seq<int>>): Option<seq<string>>
    decreases node, 1
  {
    if !node.JObj? then Some([])
    else
      var index := currentIndex.GetOr([1]);
      var post := Get(node.obj, "post", EmptyObj);
      if !post.JObj? then Some([])
      else
        match OwnFragment(post.obj, fmt, depth, opts, index)
        case None => None
        case Some(own) =>
          if !own.descend || !VisitsReplies(opts, depth) then Some(own.fragments)
          else
            match ReplyFragments(node, fmt, depth, opts, index, |ReplyNodes(node.obj)|)
            case None => None
            case Some(rest) => Some(own.fragments + rest)
  }

  /** The fragments of the first n raw replies, each rendered at depth + 1
      with the index path of its raw position. */
  function ReplyFragments(node: Json, fmt: string, depth: nat, opts: RenderOptions, index: seq<int>, n: nat): Option<seq<string>>
    requires node.JObj? && n <= |ReplyNodes(node.obj)|
    decreases node, 0, n
  {
    if n == 0 then Some([])
    else
      match ReplyFragments(node, fmt, depth, opts, index, n - 1)
      case None => None
      case Some(before) =>
        match NodeFragments(ReplyNodes(node.obj)[n - 1], fmt, depth + 1, opts, Some(ChildIndex(index, depth, n - 1)))
        case None => None
        case Some(last) => Some(before + last)
  }

  /** An exception raised by one reply ends the whole walk: the later
      replies cannot bring the result back. */
  lemma {:induction false} FailureStays(node: Json, fmt: string, depth: nat, opts: RenderOptions, index: seq<int>, m: nat, n: nat)
    requires node.JObj? && m <= n <= |ReplyNodes(node.obj)|
    requires ReplyFragments(node, fmt, depth, opts, index, m).None?
    ensures ReplyFragments(node, fmt, depth, opts, index, n).None?
    decreases n
  {
    if n > m {
      FailureStays(node, fmt, depth, opts, index, m, n - 1);
    }
  }

  /** `thread_to_markdown`: the fragments of `thread_data["thread"]`
      (default `{}`), concatenated. */
  function ThreadMarkdown(threadData: Dict, fmt: string, opts: RenderOptions): Option<string>
  {
    match NodeFragments(Get(threadData, "thread", EmptyObj), fmt, 0, opts, None)
    case None => None
    case Some(fragments) => Some(Concat(fragments))
  }

  /** The middle of `_process_thread_node`: flatten the post, apply the
      filter, add the index fields, and format, falling back on a KeyError
      and giving up on any other error. */
  method RenderPost(post: Dict, fmt: string, depth: nat, opts: RenderOptions, index: seq<int>)
    returns (own: Option<Own>)
    ensures own == OwnFragment(post, fmt, depth, opts, index)
  {
    var extracted := ExtractPostData(JObj(post));
    if extracted.None? {
      return None;
    }
    var postData := extracted.value;
    if opts.filter.Some? && !opts.filter.value(postData) {
      return Some(Own([], false));
    }
    if opts.includeIndices {
      postData := postData["index" := JStr(JoinInts(index))];
      postData := postData["depth" := JNum(depth)];
      postData := postData["indent" := JStr(Indent(depth))];
    }
    match Format(fmt, postData) {
      case Formatted(text) =>
        own := Some(Own([text], true));
      case MissingKey(_) =>
        own := Some(Own([Fallback(postData, opts.includeIndices)], true));
      case FormatError =>
        own := Some(Own([], false));
    }
  }

  /** `_process_thread_node`: appends the node's fragment to `results`,
      then walks the replies, giving each a copy of the index path
      extended and overwritten at depth + 1, and extends `results` with
      what each returns. */
  method ProcessThreadNode(node: Json, fmt: string, depth: nat, opts: RenderOptions, currentIndex: Option<seq<int>>)
    returns (results: Option<seq<string>>)
    ensures results == NodeFragments(node, fmt, depth, opts, currentIndex)
    decreases node, 1
  {
    var out: seq<string> := [];
    if !node.JObj? {
      return Some(out);
    }
    var index := if currentIndex.None? then [1] else currentIndex.value;
    var postObj := Get(node.obj, "post", EmptyObj);
    if !postObj.JObj? {
      return Some(out);
    }
    var rendered := RenderPost(postObj.obj, fmt, depth, opts, index);
    if rendered.None? {
      return None;
    }
    out := rendered.value.fragments;
    if !rendered.value.descend {
      return Some(out);
    }
    if opts.includeReplies && (opts.maxDepth < 0 || depth < opts.maxDepth) {
      var replyResults := ProcessReplies(node, fmt, depth, opts, index);
      if replyResults.None? {
        return None;
      }
      out := out + replyResults.value;
    }
    return Some(out);
  }

  /** One turn of the reply loop: the i-th reply's fragments extend the
      first i replies' fragments, and a failure there fails the whole loop. */
  lemma FragmentStep(node: Json, fmt: string, depth: nat, opts: RenderOptions, index: seq<int>, i: nat,
                     before: seq<string>, last: Option<seq<string>>)
    requires node.JObj? && i < |ReplyNodes(node.obj)|
    requires ReplyFragments(node, fmt, depth, opts, index, i) == Some(before)
    requires last == NodeFragments(ReplyNodes(node.obj)[i], fmt, depth + 1, opts, Some(ChildIndex(index, depth, i)))
    ensures last.None? ==> ReplyFragments(node, fmt, depth, opts, index, |ReplyNodes(node.obj)|).None?
    ensures last.Some? ==> ReplyFragments(node, fmt, depth, opts, index, i + 1) == Some(before + last.value)
  {
    if last.None? {
      FailureStays(node, fmt, depth, opts, index, i + 1, |ReplyNodes(node.obj)|);
    }
  }

  /** The reply loop of `_process_thread_node`: for a list `replies`,
      each reply gets a copy of the index path, extended and overwritten
      at depth + 1, and `results` is extended with what it returns. */
  method ProcessReplies(node: Json, fmt: string, depth: nat, opts: RenderOptions, index: seq<int>)
    returns (results: Option<seq<string>>)
    requires node.JObj?
    ensures results == ReplyFragments(node, fmt, depth, opts, index, |ReplyNodes(node.obj)|)
    decreases node, 0
  {
    var out: seq<string> := [];
    var replies := Get(node.obj, "replies", JArr([]));
    if !replies.JArr? {
      return Some(out);
    }
    assert replies.arr == ReplyNodes(node.obj);
    for i := 0 to |replies.arr|
      invariant ReplyFragments(node, fmt, depth, opts, index, i) == Some(out)
    {
      var replyIndex := index;
      if |replyIndex| <= depth + 1 {
        replyIndex := replyIndex + Ones(depth + 1 - |replyIndex| + 1);
      }
      replyIndex := replyIndex[depth + 1 := i + 1];
      assert replyIndex == ChildIndex(index, depth, i);
      var replyResults := ProcessThreadNode(replies.arr[i], fmt, depth + 1, opts, Some(replyIndex));
      FragmentStep(node, fmt, depth, opts, index, i, out, replyResults);
      if replyResults.None? {
        return None;
      }
      out := out + replyResults.value;
    }
    return Some(out);
  }

  /** `thread_to_markdown` with `process_media` False: renders the
      `thread` node and joins the fragments with no separator. */
  method ThreadToMarkdown(threadData: Dict, fmt: string, opts: RenderOptions) returns (markdown: Option<string>)
    ensures markdown == ThreadMarkdown(threadData, fmt, opts)
  {
    var threadNode := Get(threadData, "thread", EmptyObj);
    var postMds := ProcessThreadNode(threadNode, fmt, 0, opts, None);
    if postMds.None? {
      return None;
    }
    return Some(Concat(postMds.value));
  }

  // ---------------------------------------------------------------------
  // Properties of the flattening

  /** `embedType` is the text between the first `#` of `$type` and the
      next `#` (or the end). */
  lemma EmbedTypeSegment(s: string)
    requires Contains(s, "#")
    ensures EmbedTypeOf(JStr(s)).Some?
    ensures var et := EmbedTypeOf(JStr(s)).value;
      exists rest :: s == Before(s, "#") + "#" + et + rest
        && !Contains(Before(s, "#"), "#") && !Contains(et, "#")
        && (rest == [] || rest[0] == '#')
  {
    BeforeAfter(s, "#");
    var tail := After(s, "#");
    var et := Before(tail, "#");
    assert EmbedTypeOf(JStr(s)).value == et;
    var rest: string := if Contains(tail, "#") then "#" + After(tail, "#") else [];
    assert tail == et + rest by {
      if Contains(tail, "#") {
        BeforeAfter(tail, "#");
      }
    }
    assert !Contains(et, "#") by {
      if Contains(tail, "#") {
        BeforeAfter(tail, "#");
      }
    }
    assert s == Before(s, "#") + "#" + et + rest;
    assert rest == [] || rest[0] == '#';
  }

  /** An author that is a dict gives `displayName` from `displayName`,
      else from `handle`, else ""; any other author adds none of the
      author keys. */
  lemma AuthorFlattening(post: Dict)
    requires Flatten(post).Some?
    ensures var author, a := Get(post, "author", EmptyObj), Flatten(post).value.author;
      (author.JObj? <==> a.Some?)
      && (author.JObj? ==>
            a.value.displayName == (if "displayName" in author.obj then author.obj["displayName"]
                                    else if "handle" in author.obj then author.obj["handle"] else JStr(""))
            && a.value.handle == Get(author.obj, "handle", JStr("")))
  {
  }

  /** `hasFacets` is True exactly when `record.facets` is a non-empty
      list, and `facets` is copied only then; no record, no record keys. */
  lemma FacetsFlag(post: Dict)
    requires Flatten(post).Some?
    ensures var record, r := Get(post, "record", EmptyObj), Flatten(post).value.record;
      (record.JObj? <==> r.Some?)
      && (record.JObj? ==>
            var facets := Get(record.obj, "facets", JArr([]));
            (r.value.facets.Some? <==> facets.JArr? && facets.arr != [])
            && (r.value.facets.Some? ==> r.value.facets.value == facets))
  {
  }

  /** The three embed branches exclude each other and are chosen by
      substring, in order: images, then record, then external. */
  lemma EmbedBranches(embed: Dict)
    requires EmbedOf(embed).Some?
    ensures var e := EmbedOf(embed).value;
      Some(e.embedType) == EmbedTypeOf(Get(embed, "$type", JStr("")))
      && (e.branch.ImageBranch? <==> Contains(e.embedType, "images"))
      && (e.branch.QuoteBranch? <==> !Contains(e.embedType, "images") && Contains(e.embedType, "record"))
      && (e.branch.ExternalBranch? <==> !Contains(e.embedType, "images") && !Contains(e.embedType, "record") && Contains(e.embedType, "external"))
  {
    var et :| EmbedTypeOf(Get(embed, "$type", JStr(""))) == Some(et);
    if Contains(et, "images") {
    } else if Contains(et, "record") {
    } else if Contains(et, "external") {
    }
  }

  /** A hydrated embed's `$type` is an NSID followed by `#view` (for
      instance `app.bsky.embed.images#view`), so `embedType` is "view" and
      none of the three branches is taken, whatever the NSID names. */
  lemma ViewTypeSetsNoFlag(nsid: string)
    requires !Contains(nsid, "#")
    ensures EmbedOf(map["$type" := JStr(nsid + "#view")]) == Some(EmbedData("view", NoBranch))
  {
    ViewSegment(nsid);
    ViewWord();
  }

  /** The segment after the first `#` of `nsid#view` is "view". */
  lemma ViewSegment(nsid: string)
    requires !Contains(nsid, "#")
    ensures EmbedTypeOf(JStr(nsid + "#view")) == Some("view")
  {
    var s := nsid + "#view";
    assert OccursAt(s, "#", |nsid|) by { assert s[|nsid|..|nsid| + 1] == "#"; }
    forall j: nat | j < |nsid| ensures !OccursAt(s, "#", j) {
      assert s[j..j + 1] == nsid[j..j + 1];
      assert !OccursAt(nsid, "#", j);
    }
    assert IndexOf(s, "#").value == |nsid|;
    assert After(s, "#") == "view";
    ViewWord();
  }

  /** "view" holds no `#` and names none of the three embed kinds. */
  lemma ViewWord()
    ensures !Contains("view", "#") && Before("view", "#") == "view"
    ensures !Contains("view", "images") && !Contains("view", "record") && !Contains("view", "external")
  {
    forall j: nat ensures !OccursAt("view", "#", j) {
      if j < 4 {
        assert "view"[j] != '#' && "view"[j..j + 1][0] == "view"[j];
      }
    }
  }

  // ---------------------------------------------------------------------
  // Properties of str.format

  /** A template without braces renders as itself. */
  lemma {:induction false} FormatPlain(fmt: string, fields: Dict)
    requires forall k :: 0 <= k < |fmt| ==> fmt[k] != '{' && fmt[k] != '}'
    ensures Format(fmt, fields) == Formatted(fmt)
    decreases |fmt|
  {
    if fmt != [] {
      FormatPlain(fmt[1..], fields);
      assert [fmt[0]] + fmt[1..] == fmt;
    }
  }

  /** A placeholder is replaced by `str()` of its value, or raises a
      KeyError naming it, before anything after it is looked at. */
  lemma FormatField(name: string, rest: string, fields: Dict)
    requires KeywordName(name) && forall k :: 0 <= k < |name| ==> name[k] != '}'
    ensures var out := Format("{" + name + "}" + rest, fields);
      (name in fields ==> out == Prepend(PyStr(fields[name]), Format(rest, fields)))
      && (name !in fields ==> out == MissingKey(name))
  {
    var fmt := "{" + name + "}" + rest;
    assert fmt[1..] == name + "}" + rest;
    assert name[0] != '{';
    assert OccursAt(fmt[1..], "}", |name|);
    forall j | 0 <= j < |name| ensures !OccursAt(fmt[1..], "}", j) {
      assert fmt[1..][j] == name[j];
    }
    assert IndexOf(fmt[1..], "}") == Some(|name|);
    assert fmt[1..|name| + 1] == name;
    assert fmt[|name| + 2..] == rest;
  }

  /** A template as literal text and `{name}` placeholders. */
  datatype Piece = Text(text: string) | Slot(name: string)

  /** The pieces the scanner can tell apart: text without braces and
      keyword names without a closing brace. */
  predicate PlainPiece(p: Piece)
  {
    match p
    case Text(t) => forall k :: 0 <= k < |t| ==> t[k] != '{' && t[k] != '}'
    case Slot(n) => KeywordName(n) && forall k :: 0 <= k < |n| ==> n[k] != '}'
  }

  /** The text one piece spells. */
  function PieceText(p: Piece): string
  {
    match p
    case Text(t) => t
    case Slot(n) => "{" + n + "}"
  }

  /** The template string the pieces spell. */
  function Template(pieces: seq<Piece>): string
  {
    if pieces == [] then "" else PieceText(pieces[0]) + Template(pieces[1..])
  }

  /** The reference rendering: texts as they are, each placeholder by
      `str()` of its value, and a KeyError for the first absent name. */
  function Render(pieces: seq<Piece>, fields: Dict): FormatOutcome
  {
    if pieces == [] then Formatted("")
    else
      match pieces[0]
      case Text(t) => Prepend(t, Render(pieces[1..], fields))
      case Slot(n) => if n in fields then Prepend(PyStr(fields[n]), Render(pieces[1..], fields)) else MissingKey(n)
  }

  /** The scanner renders every template of plain pieces as the
      reference rendering does. */
  lemma {:induction false} FormatTemplate(pieces: seq<Piece>, fields: Dict)
    requires forall i :: 0 <= i < |pieces| ==> PlainPiece(pieces[i])
    ensures Format(Template(pieces), fields) == Render(pieces, fields)
    decreases |pieces|
  {
    if pieces == [] {
    } else {
      var rest := Template(pieces[1..]);
      FormatTemplate(pieces[1..], fields);
      match pieces[0]
      case Text(t) =>
        assert PlainPiece(pieces[0]);
        FormatPrefix(t, rest, fields);
      case Slot(n) =>
        assert PlainPiece(pieces[0]);
        assert Template(pieces) == "{" + n + "}" + rest;
        FormatField(n, rest, fields);
    }
  }

  /** The default template, piece by piece. */
  const DefaultPieces: seq<Piece> :=
    [Text("**"), Slot("displayName"), Text("** (@"), Slot("handle"), Text("):\n"), Slot("text"), Text("\n\n")]

  /** The default template string is the one the pieces spell. */
  lemma DefaultTemplate()
    ensures Template(DefaultPieces) == DefaultFormat
  {
    TemplateOfSeven("**", "displayName", "** (@", "handle", "):\n", "text", "\n\n");
    DefaultSpelled();
  }

  /** The default template string, spelled piece by piece. */
  lemma DefaultSpelled()
    ensures "**" + ("{" + "displayName" + "}") + "** (@" + ("{" + "handle" + "}") + "):\n"
      + ("{" + "text" + "}") + "\n\n" == DefaultFormat
  {
    assert "{" + "displayName" + "}" == "{displayName}";
    assert "**" + "{displayName}" == "**{displayName}";
    assert "**{displayName}" + "** (@" == "**{displayName}** (@";
    assert "{" + "handle" + "}" == "{handle}";
    assert "**{displayName}** (@" + "{handle}" == "**{displayName}** (@{handle}";
    assert "**{displayName}** (@{handle}" + "):\n" == "**{displayName}** (@{handle}):\n";
    assert "{" + "text" + "}" == "{text}";
    assert "**{displayName}** (@{handle}):\n" + "{text}" == "**{displayName}** (@{handle}):\n{text}";
    assert "**{displayName}** (@{handle}):\n{text}" + "\n\n" == DefaultFormat;
  }

  /** A template shaped like the default one spells its texts and
      bracketed names in order. */
  lemma TemplateOfSeven(a: string, b: string, c: string, d: string, e: string, f: string, g: string)
    ensures Template([Text(a), Slot(b), Text(c), Slot(d), Text(e), Slot(f), Text(g)])
      == a + ("{" + b + "}") + c + ("{" + d + "}") + e + ("{" + f + "}") + g
  {
    var q1: seq<Piece> := [Text(a)];
    var q2 := q1 + [Slot(b)];
    var q3 := q2 + [Text(c)];
    var q4 := q3 + [Slot(d)];
    var q5 := q4 + [Text(e)];
    var q6 := q5 + [Slot(f)];
    assert [Text(a), Slot(b), Text(c), Slot(d), Text(e), Slot(f), Text(g)] == q6 + [Text(g)];
    assert Template(q1) == a by { assert q1[1..] == []; }
    TemplateSnoc(q1, Slot(b));
    TemplateSnoc(q2, Text(c));
    TemplateSnoc(q3, Slot(d));
    TemplateSnoc(q4, Text(e));
    TemplateSnoc(q5, Slot(f));
    TemplateSnoc(q6, Text(g));
  }

  /** A template spells its pieces one after the other. */
  lemma {:induction false} TemplateSnoc(pieces: seq<Piece>, p: Piece)
    ensures Template(pieces + [p]) == Template(pieces) + PieceText(p)
    decreases |pieces|
  {
    if pieces == [] {
      assert ([] + [p])[1..] == [];
    } else {
      assert (pieces + [p])[1..] == pieces[1..] + [p];
      TemplateSnoc(pieces[1..], p);
    }
  }

  /** Every piece of the default template is one the scanner tells apart. */
  lemma DefaultPlain()
    ensures forall i :: 0 <= i < |DefaultPieces| ==> PlainPiece(DefaultPieces[i])
  {
    forall i | 0 <= i < |DefaultPieces| ensures PlainPiece(DefaultPieces[i]) {
      match DefaultPieces[i]
      case Text(t) =>
      case Slot(n) => assert !AllDigits(n) by { assert !('0' <= n[0] <= '9'); }
    }
  }

  /** The scanner renders the default template string as the reference
      rendering of its pieces. */
  lemma DefaultFormatPieces(fields: Dict)
    ensures Format(DefaultFormat, fields) == Render(DefaultPieces, fields)
  {
    DefaultTemplate();
    DefaultPlain();
    FormatTemplate(DefaultPieces, fields);
  }

  /** Rendering a text piece prepends it. */
  lemma RenderText(t: string, rest: seq<Piece>, fields: Dict)
    ensures Render([Text(t)] + rest, fields) == Prepend(t, Render(rest, fields))
  {
    assert ([Text(t)] + rest)[1..] == rest;
  }

  /** Rendering a placeholder whose name is present prepends its value. */
  lemma RenderSlot(n: string, rest: seq<Piece>, fields: Dict)
    requires n in fields
    ensures Render([Slot(n)] + rest, fields) == Prepend(PyStr(fields[n]), Render(rest, fields))
  {
    assert ([Slot(n)] + rest)[1..] == rest;
  }

  /** The default template renders display name, handle and text exactly
      as the fallback fragment does. */
  lemma DefaultFormatMatchesFallback(fields: Dict)
    requires "displayName" in fields && "handle" in fields && "text" in fields
    ensures Render(DefaultPieces, fields) == Formatted(Fallback(fields, false))
    ensures Format(DefaultFormat, fields) == Formatted(Fallback(fields, false))
  {
    assert Render(DefaultPieces, fields) == Formatted(Fallback(fields, false)) by {
      var d, h, t := PyStr(fields["displayName"]), PyStr(fields["handle"]), PyStr(fields["text"]);
      var p6: seq<Piece> := [Text("\n\n")];
      var p5 := [Slot("text")] + p6;
      var p4 := [Text("):\n")] + p5;
      var p3 := [Slot("handle")] + p4;
      var p2 := [Text("** (@")] + p3;
      var p1 := [Slot("displayName")] + p2;
      assert DefaultPieces == [Text("**")] + p1;
      RenderText("\n\n", [], fields);
      assert p6 == [Text("\n\n")] + [];
      RenderSlot("text", p6, fields);
      RenderText("):\n", p5, fields);
      RenderSlot("handle", p4, fields);
      RenderText("** (@", p3, fields);
      RenderSlot("displayName", p2, fields);
      RenderText("**", p1, fields);
      assert "\n\n" + "" == "\n\n";
      assert Render(DefaultPieces, fields) == Formatted("**" + (d + ("** (@" + (h + ("):\n" + (t + "\n\n"))))));
    }
    DefaultFormatPieces(fields);
  }

  /** A post without `displayName` makes the default template raise a
      KeyError naming it, which sends the walk to the fallback fragment. */
  lemma DefaultFormatMissingName(fields: Dict)
    requires "displayName" !in fields
    ensures Render(DefaultPieces, fields) == MissingKey("displayName")
    ensures Format(DefaultFormat, fields) == MissingKey("displayName")
  {
    assert Render(DefaultPieces, fields) == MissingKey("displayName") by {
      var rest := DefaultPieces[2..];
      assert DefaultPieces == [Text("**")] + ([Slot("displayName")] + rest);
      RenderText("**", [Slot("displayName")] + rest, fields);
      assert ([Slot("displayName")] + rest)[0] == Slot("displayName");
    }
    DefaultFormatPieces(fields);
  }

  /** A character other than a brace is copied as it is. */
  lemma FormatCons(c: char, rest: string, fields: Dict)
    requires c != '{' && c != '}'
    ensures Format([c] + rest, fields) == Prepend([c], Format(rest, fields))
  {
    var fmt := [c] + rest;
    assert fmt[0] == c && fmt[1..] == rest;
  }

  /** Literal text without braces in front of a template is copied in front. */
  lemma {:induction false} FormatPrefix(lit: string, rest: string, fields: Dict)
    requires forall k :: 0 <= k < |lit| ==> lit[k] != '{' && lit[k] != '}'
    ensures Format(lit + rest, fields) == Prepend(lit, Format(rest, fields))
    decreases |lit|
  {
    if lit == [] {
      assert lit + rest == rest;
    } else {
      var c, tail := lit[0], lit[1..];
      assert lit + rest == [c] + (tail + rest);
      FormatCons(c, tail + rest, fields);
      FormatPrefix(tail, rest, fields);
      var inner := Format(rest, fields);
      if inner.Formatted? {
        assert [c] + (tail + inner.text) == lit + inner.text;
      }
    }
  }

  // ---------------------------------------------------------------------
  // Properties of the walk

  /** Along the walk the index path has length depth + 1, so a reply's
      path is its parent's with its 1-based raw position appended, and its
      dotted index is the parent's, a dot, and that position. */
  lemma ChildIndexAppends(index: seq<int>, depth: nat, i: nat)
    requires |index| == depth + 1
    ensures ChildIndex(index, depth, i) == index + [i + 1]
    ensures JoinInts(ChildIndex(index, depth, i)) == JoinInts(index) + "." + IntToString(i + 1)
  {
    assert ChildIndex(index, depth, i) == index + [i + 1];
    JoinIntsSnoc(index, i + 1);
  }

  /** The root's dotted index is "1" and its replies are "1.1", "1.2", ... */
  lemma RootIndices(i: nat)
    ensures JoinInts([1]) == "1"
    ensures JoinInts(ChildIndex([1], 0, i)) == "1." + IntToString(i + 1)
  {
    ChildIndexAppends([1], 0, i);
  }

  /** A post the filter rejects removes the node and its whole subtree. */
  lemma FilterPrunesSubtree(node: Json, fmt: string, depth: nat, opts: RenderOptions, currentIndex: Option<seq<int>>)
    requires node.JObj? && Get(node.obj, "post", EmptyObj).JObj?
    requires var pd := ExtractPostData(Get(node.obj, "post", EmptyObj));
      pd.Some? && opts.filter.Some? && !opts.filter.value(pd.value)
    ensures NodeFragments(node, fmt, depth, opts, currentIndex) == Some([])
  {
  }

  /** At or below the depth limit, or without replies, a node writes at
      most its own fragment. */
  lemma DepthLimit(node: Json, fmt: string, depth: nat, opts: RenderOptions, currentIndex: Option<seq<int>>)
    requires !opts.includeReplies || (0 <= opts.maxDepth <= depth)
    ensures var r := NodeFragments(node, fmt, depth, opts, currentIndex);
      r.Some? ==> |r.value| <= 1
  {
  }

  /** A missing placeholder writes the fallback fragment and still visits
      the replies; any other format error drops the node and its subtree. */
  lemma FormatFailures(node: Json, fmt: string, depth: nat, opts: RenderOptions, currentIndex: Option<seq<int>>)
    requires node.JObj? && Get(node.obj, "post", EmptyObj).JObj?
    requires var pd := ExtractPostData(Get(node.obj, "post", EmptyObj));
      pd.Some? && (opts.filter.None? || opts.filter.value(pd.value))
    ensures var pd := ExtractPostData(Get(node.obj, "post", EmptyObj)).value;
      var index := currentIndex.GetOr([1]);
      var fields := WithIndex(pd, opts.includeIndices, index, depth);
      var r := NodeFragments(node, fmt, depth, opts, currentIndex);
      (Format(fmt, fields).FormatError? ==> r == Some([]))
      && (Format(fmt, fields).MissingKey? && VisitsReplies(opts, depth) ==>
            r == match ReplyFragments(node, fmt, depth, opts, index, |ReplyNodes(node.obj)|)
                 case None => None
                 case Some(rest) => Some([Fallback(fields, opts.includeIndices)] + rest))
  {
  }

  /** With indices on, `index` is the dotted path, `depth` the depth and
      `indent` two spaces per level; every other field is kept. Without
      indices the dictionary is unchanged. */
  lemma IndexFields(postData: Dict, index: seq<int>, depth: nat)
    ensures var f := WithIndex(postData, true, index, depth);
      f["index"] == JStr(JoinInts(index)) && f["depth"] == JNum(depth)
      && f["indent"].JStr? && |f["indent"].s| == 2 * depth
      && (forall k :: 0 <= k < 2 * depth ==> f["indent"].s[k] == ' ')
      && f.Keys == postData.Keys + {"index", "depth", "indent"}
      && (forall key :: key in postData && key != "index" && key != "depth" && key != "indent" ==> f[key] == postData[key])
    ensures WithIndex(postData, false, index, depth) == postData
  {
  }

  /** With indices on, the fallback fragment is the one without indices
      behind the bracketed dotted index. */
  lemma FallbackIndexPrefix(postData: Dict, index: seq<int>, depth: nat)
    ensures var f := WithIndex(postData, true, index, depth);
      Fallback(f, true) == "[" + JoinInts(index) + "] " + Fallback(f, false)
  {
    var f := WithIndex(postData, true, index, depth);
    assert Get(f, "index", JStr("")) == JStr(JoinInts(index));
  }
}
