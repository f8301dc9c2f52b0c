# bsky2llm core in Dafny

bsky2llm turns a Bluesky post thread into text for a language model.
This project models the I/O-free core of that pipeline. Each part is
proved against specification functions.

- **Media extraction and thread normalisation** (`get_post_thread.py`, module
  `PostThread`).
  - `safe_get` walks a key path.
  - `_extract_media_from_post` probes a raw post's embed in a fixed order and
    appends media records (image, link, video, derived CDN media, HLS
    playlist). It never deduplicates.
  - `_process_thread_node` turns a raw thread node into a clean post with
    defaulted fields and its surviving replies.
  - All three are methods with loops. Each is proved equal to a function:
    `Lookup`, `MediaOf`, `NodeJson`.
- **Thread-to-markdown compiler** (`markdown_creator.py`, module
  `MarkdownCreator`).
  - `_extract_post_data` flattens a post into a placeholder dictionary. It is
    modelled as a function over key groups (`Flatten`, `ExtractPostData`).
  - `format_str.format(**fields)` is a scanner (`Format`).
  - `_process_thread_node` (without media processing) and `thread_to_markdown`
    are methods proved equal to the preorder specification `NodeFragments`.
    That specification covers dotted index paths, filter pruning, the depth
    limit, the KeyError fallback, and the other format errors.
- **Outline composer** (`compose_md.py`, module `ComposeMd`).
  - `compose_thread_markdown` and its nested `process_replies` are methods.
    They are proved equal to `Outline` and `Replies`.
  - Those functions cover the author fallbacks, numbering, separators, and the
    fixed "no posts" and error outputs. Python exceptions become `Err` with
    the exception's message.
- **Link and AT-URI conversion** (`url_converter.py`, module `UrlConverter`;
  `get_thread_from_url.py`, module `ThreadFromUrl`).
  - The two regular expressions are hand-written matchers. They are proved
    sound and complete for the texts they describe.
  - The split/strip converter is modelled as written, next to a corrected
    version.
  - The handle↔DID look-ups are function parameters (`Resolver`).

Shared modules:
- `Json`: a JSON value type with Python truthiness, `dict.get`, `or`, `str()`
  and type names.
- `Strings`: the `str` operations the code uses, namely `split`, `in`,
  `startswith`, `strip`, `rstrip` and `join`.
- `Wrappers`: `Option` and `Result`.

## Model

| member | source | states |
|---|---|---|
| Json.Get | src/bsky2llm/get_post_thread.py:200 | `d.get(key, default)`: the stored value when the key is present, else the default |
| Json.Or | src/bsky2llm/get_post_thread.py:101 | `a or b`: a when a is truthy, b otherwise; the result is truthy iff either operand is |
| Strings.IndexOf | src/bsky2llm/get_thread_from_url.py:47 | the substring search behind `pat in s` and `s.split(pat)`: the first occurrence, and None exactly when pat occurs nowhere |
| Strings.Before | src/bsky2llm/get_thread_from_url.py:41 | `s.split(sep)[0]`: a prefix of s as long as the first occurrence's position, or all of s when sep is absent |
| Strings.BeforeAfter | src/bsky2llm/get_thread_from_url.py:51 | `s.split(sep, 1)`: the two parts glued around sep give s back, and the first part holds no sep |
| Strings.RStrip | src/bsky2llm/get_thread_from_url.py:41 | `s.rstrip(c)`: a prefix of s that does not end in c, with only c removed |
| Strings.Strip | src/bsky2llm/get_thread_from_url.py:52-53 | `s.strip(c)`: a contiguous piece of s with only c before and after it, neither starting nor ending with c |
| Strings.Indent | src/bsky2llm/markdown_creator.py:173 | `"  " * depth`: exactly 2·depth spaces |
| PostThread.SafeGet | src/bsky2llm/get_post_thread.py:38-48 | the loop returns `Lookup`: the default for a non-dict start, else the value the key path reaches, else the default |
| PostThread.WalkAppend | src/bsky2llm/get_post_thread.py:42-47 | walking a concatenated key path is walking the first part and then the second from where it stopped |
| PostThread.WalkResolves | src/bsky2llm/get_post_thread.py:38-48 | a value is found iff every intermediate value is a dict holding the next key, and then it is the last dict's entry |
| PostThread.LookupCases | src/bsky2llm/get_post_thread.py:38-48 | `safe_get` yields the default iff the start is not a dict or some step fails, and otherwise the value at the end of the path |
| PostThread.LookupOne | src/bsky2llm/get_post_thread.py:38-48 | with one key, `safe_get` is `.get` on a dict and the default on anything else |
| PostThread.VideoRecord | src/bsky2llm/get_post_thread.py:99-107 | the video block yields `VideoEntry`: `url` when truthy, else `currentSrc`, and no record when both are falsy |
| PostThread.ImageRecords | src/bsky2llm/get_post_thread.py:62-73 | the image loop yields `ImagesFrom` of the list in list order, and nothing for a non-list |
| PostThread.LinkRecord | src/bsky2llm/get_post_thread.py:76-94 | the link block yields `LinkItems`: one card for a dict with a truthy uri, with a thumbnail only from a dict thumb with a truthy url |
| PostThread.ItemRecords | src/bsky2llm/get_post_thread.py:124-150 | the item loop yields `ItemsFrom`: for each dict item its video, then its image (`url`, else `fullsize`) |
| PostThread.ItemRecord | src/bsky2llm/get_post_thread.py:126-150 | one item yields `ItemEntry`: nothing for a non-dict item, else its video record, then its image record (`url`, else `fullsize`) |
| PostThread.MediaObjRecords | src/bsky2llm/get_post_thread.py:110-162 | the `embed.media` block yields its video, then its items, then the CDN record from `ref` |
| PostThread.SelectEmbed | src/bsky2llm/get_post_thread.py:51-55 | the embed is `post["embed"]` whenever the key exists, else `post.record.embed` |
| PostThread.EmbedViewRecord | src/bsky2llm/get_post_thread.py:174-182 | `embedView.video` is read from the post, not the embed, and uses `url` only |
| PostThread.ExtractMedia | src/bsky2llm/get_post_thread.py:21-185 | the extractor returns `MediaOf(post)`: nothing for a non-dict post or a non-dict embed, else the probes in fixed order |
| PostThread.MediaItem.ToJson | src/bsky2llm/get_post_thread.py:69-182 | each record's `type` ("image", "link", "video", "media"), `uri` and exact key set; `alt`, `title`/`description`, `poster`, `ref` and `format: "hls"` where the source writes them; `thumbnail` only on a link card that has one |
| PostThread.Author.ToJson | src/bsky2llm/get_post_thread.py:209-214 | the clean author has exactly `did`, `handle`, `display_name` and `avatar`, with `display_name` read from `displayName` |
| PostThread.CleanPost.ToJson | src/bsky2llm/get_post_thread.py:229-255 | the clean post is a non-empty dict; `replies` is present iff some reply survived, and then it is the list of their clean dicts in order |
| PostThread.CleanPostKeys | src/bsky2llm/get_post_thread.py:229-241 | the clean post dict has exactly the eleven fixed keys, plus `replies` when present |
| PostThread.CleanPostValues | src/bsky2llm/get_post_thread.py:229-241 | `cid`, `created_at`, `media`, the two viewer flags and the three counts each hold their field |
| PostThread.MediaJson | src/bsky2llm/get_post_thread.py:235 | the `media` list holds one dict per record, in order |
| PostThread.PostsJson | src/bsky2llm/get_post_thread.py:255 | the `replies` list holds one dict per clean reply, in order |
| PostThread.DictAt | src/bsky2llm/get_post_thread.py:205-207 | `d.get(key, {})` replaced by `{}` when it is not a dict |
| PostThread.BuildCleanPost | src/bsky2llm/get_post_thread.py:200-241 | the clean record of a dict post: author, record and viewer defaults as `CleanOf` states |
| PostThread.ProcessThreadNode | src/bsky2llm/get_post_thread.py:187-257 | the recursive method returns `NodeJson(node)`: `{}` or the clean post with its surviving replies |
| PostThread.ReplyStep | src/bsky2llm/get_post_thread.py:249-252 | a truthy reply result is the reply's normalisation and is appended; a falsy one leaves the kept list unchanged |
| PostThread.NormalizeStep | src/bsky2llm/get_post_thread.py:249-252 | a raw reply normalises exactly when it and its `post` are dicts, and only then is it added to the kept list |
| PostThread.ImagesFromShape | src/bsky2llm/get_post_thread.py:62-73 | every image-loop record is an image with a non-empty string uri, and there are no more records than entries |
| PostThread.ImagesFromAppend | src/bsky2llm/get_post_thread.py:64-73 | the image loop distributes over list concatenation |
| PostThread.ImagesFromSnoc | src/bsky2llm/get_post_thread.py:64-73 | one more entry appends its own record, if any |
| PostThread.ImagesFromSingle | src/bsky2llm/get_post_thread.py:65-73 | an entry yields exactly one image iff it is a dict with a non-empty string `fullsize`; `alt` defaults to "" |
| PostThread.ImagesExample | src/bsky2llm/get_post_thread.py:62-73 | duplicates are kept, and non-dict entries and entries with an empty `fullsize` are skipped |
| PostThread.ItemsFromShape | src/bsky2llm/get_post_thread.py:126-150 | every item record is a video or an image with a truthy uri |
| PostThread.MediaObjShape | src/bsky2llm/get_post_thread.py:110-162 | the media object never yields a link card, and each record is well formed |
| PostThread.MediaObjExample | src/bsky2llm/get_post_thread.py:110-162 | example: a media object with a `url` video, one item holding a `url` video and a `fullsize` image, and a string `$link` gives four records in that order, the last the CDN URL `https://cdn.bsky.app/img/feed_thumbnail/plain/L@jpeg` |
| PostThread.VideoFromSource | src/bsky2llm/get_post_thread.py:99-107 | example: the dict `{currentSrc: S}` with S non-empty yields one video record for S with an empty poster |
| PostThread.ItemVideoThenImage | src/bsky2llm/get_post_thread.py:126-150 | example: an item `{video: {url: U}, image: {fullsize: F}}` yields the video record for U, then the image record for F |
| PostThread.TailShape | src/bsky2llm/get_post_thread.py:99-182 | nothing after the link card is a link card |
| PostThread.MediaWellFormed | src/bsky2llm/get_post_thread.py:62-182 | no emitted record has a falsy uri, and a derived media record's uri is the CDN URL of its ref |
| PostThread.AtMostOneLink | src/bsky2llm/get_post_thread.py:76-94 | at most one link card is emitted |
| PostThread.EmbedKeyShadowsRecord | src/bsky2llm/get_post_thread.py:51-59 | a non-dict `embed` value hides `record.embed`, and the result is `[]` |
| PostThread.RecordEmbedFallback | src/bsky2llm/get_post_thread.py:50-55 | without an `embed` key: `record.embed` when `record` is a dict holding `embed`, and no embed otherwise |
| PostThread.ProbeOrder | src/bsky2llm/get_post_thread.py:62-182 | example: with one record from each of images, link card, embed video, playlist and `embedView` (no media object), the five come out in that order |
| PostThread.HeadOrder | src/bsky2llm/get_post_thread.py:62-95 | a one-image embed contributes that image's record, then the link card, before everything else |
| PostThread.TailOrder | src/bsky2llm/get_post_thread.py:99-182 | example: without a media object, after the link card come the embed's video, the HLS record, then the `embedView` video |
| PostThread.MediaOrder | src/bsky2llm/get_post_thread.py:50-182 | for every post with a dict embed: the images in list order, the link card, the embed video, the media object's records, the HLS record, then the `embedView` video |
| PostThread.TailProbes | src/bsky2llm/get_post_thread.py:98-182 | the four probes after the link card each read their key of the embed with one `.get` |
| PostThread.MediaObjOrder | src/bsky2llm/get_post_thread.py:110-162 | for every media object: its video, then its items in list order, then the CDN record of its `ref` |
| PostThread.VideoCases | src/bsky2llm/get_post_thread.py:99-107 | for every video dict: no record iff `url` and `currentSrc` are both falsy, else one record for `url` when truthy, else `currentSrc`, with `poster` defaulting to "" |
| PostThread.ItemCases | src/bsky2llm/get_post_thread.py:126-150 | for every dict item: its video record, if any, before its image record, if any |
| PostThread.ItemImageCases | src/bsky2llm/get_post_thread.py:142-150 | for every item image dict: no record iff `url` and `fullsize` are both falsy, else one for `url` when truthy, else `fullsize`, with `alt` defaulting to "" |
| PostThread.EmbedViewCases | src/bsky2llm/get_post_thread.py:174-182 | for every `embedView.video` dict: one record for a truthy `url` (no `currentSrc` fallback), none otherwise |
| PostThread.NormalizeDropped | src/bsky2llm/get_post_thread.py:197-202 | a node becomes `{}` iff it, or its `post`, is not a dict; otherwise the result is truthy |
| PostThread.NormalizeDefaults | src/bsky2llm/get_post_thread.py:205-241 | a missing or empty post gives "" strings, zero counts, False viewer flags and no media |
| PostThread.KeptInOrder | src/bsky2llm/get_post_thread.py:244-252 | the kept replies are exactly the surviving raw replies, in their order, each normalised |
| PostThread.KeptPositions | src/bsky2llm/get_post_thread.py:244-252 | the kept positions are increasing, all below n, and include every surviving raw reply |
| PostThread.KeptNormalized | src/bsky2llm/get_post_thread.py:244-252 | the k-th kept reply is the normalisation of the raw reply at the k-th kept position |
| PostThread.KeptAll | src/bsky2llm/get_post_thread.py:249-252 | when every reply survives, every position is kept |
| PostThread.RepliesKeyPresent | src/bsky2llm/get_post_thread.py:254-255 | `replies` is present iff at least one raw reply survives |
| PostThread.AllRepliesKept | src/bsky2llm/get_post_thread.py:249-255 | when every raw reply survives, all are kept one for one, in order |
| MarkdownCreator.EmbedTypeOf | src/bsky2llm/markdown_creator.py:84-85 | `embedType`: "" for a string without `#`, and a non-empty value only from a string holding `#`; an exception when `$type` is null, a bool or a number, or a list or dict holding "#" |
| MarkdownCreator.EmbedTypeSegment | src/bsky2llm/markdown_creator.py:85 | `embedType` is the text between the first and second `#` of `$type` |
| MarkdownCreator.AuthorFlattening | src/bsky2llm/markdown_creator.py:54-59 | `displayName` is `author.displayName`, else `author.handle`, else ""; the author keys are absent when `author` is not a dict |
| MarkdownCreator.FacetsFlag | src/bsky2llm/markdown_creator.py:68-73 | `hasFacets` is True iff `record.facets` is a non-empty list, and `facets` is copied only then |
| MarkdownCreator.EmbedBranches | src/bsky2llm/markdown_creator.py:87-111 | the images, record and external branches exclude each other and are chosen by substring match in that order |
| MarkdownCreator.ViewTypeSetsNoFlag | src/bsky2llm/markdown_creator.py:84-111 | a hydrated `NSID#view` type gives `embedType` "view" and sets none of the branch flags |
| MarkdownCreator.ViewSegment | src/bsky2llm/markdown_creator.py:85 | the `embedType` of `NSID#view` is "view" for any NSID without `#` |
| MarkdownCreator.FormatPlain | src/bsky2llm/markdown_creator.py:177 | a template without braces renders as itself |
| MarkdownCreator.FormatField | src/bsky2llm/markdown_creator.py:177 | `{name}` becomes `str()` of the field, or a KeyError naming it when absent |
| MarkdownCreator.FormatTemplate | src/bsky2llm/markdown_creator.py:177 | the scanner renders any template of texts and `{name}` placeholders as the reference rendering `Render` |
| MarkdownCreator.DefaultFormatMatchesFallback | src/bsky2llm/markdown_creator.py:251 | with all three keys present, `Format` of the default template string (and `Render` of its pieces) gives exactly the fallback fragment without an index |
| MarkdownCreator.DefaultFormatMissingName | src/bsky2llm/markdown_creator.py:194-198 | a post without `displayName` makes `Format` of the default template string (and `Render` of its pieces) raise a KeyError for that key |
| MarkdownCreator.DefaultFormatPieces | src/bsky2llm/markdown_creator.py:251 | `Format` of the default template string equals the reference rendering of its seven pieces, for every post |
| MarkdownCreator.DefaultTemplate | src/bsky2llm/markdown_creator.py:251 | the seven pieces spell exactly the default template string |
| MarkdownCreator.DefaultSpelled | src/bsky2llm/markdown_creator.py:251 | the texts and bracketed names of the seven pieces, joined, are the default template string |
| MarkdownCreator.TemplateSnoc | src/bsky2llm/markdown_creator.py:251 | a template spells its pieces one after the other, for any piece list |
| MarkdownCreator.Ones | src/bsky2llm/markdown_creator.py:226 | `[1] * n` |
| MarkdownCreator.ChildIndex | src/bsky2llm/markdown_creator.py:223-229 | the reply at raw position i gets the parent's path padded with 1s and `i + 1` at `depth + 1` |
| MarkdownCreator.ChildIndexAppends | src/bsky2llm/markdown_creator.py:221-229 | along the walk, a reply's path is its parent's path with `i + 1` appended, so its dotted index extends the parent's |
| MarkdownCreator.RootIndices | src/bsky2llm/markdown_creator.py:153-154 | the root's index is "1" and its replies are "1.1", "1.2", … |
| MarkdownCreator.IndexFields | src/bsky2llm/markdown_creator.py:169-173 | with indices, `index` is the dotted path, `depth` the depth and `indent` two spaces per level; without them the fields are unchanged |
| MarkdownCreator.RenderPost | src/bsky2llm/markdown_creator.py:162-215 | the middle of a node: filter, index fields, and a format outcome as `OwnFragment` states |
| MarkdownCreator.ProcessThreadNode | src/bsky2llm/markdown_creator.py:115-247 | the recursive method returns `NodeFragments`: the node's fragment, then its replies' fragments in preorder |
| MarkdownCreator.ProcessReplies | src/bsky2llm/markdown_creator.py:218-245 | the reply loop returns `ReplyFragments` over all raw replies |
| MarkdownCreator.FragmentStep | src/bsky2llm/markdown_creator.py:221-245 | one turn of the reply loop appends the reply's fragments, and a reply that raises makes the whole loop raise |
| MarkdownCreator.FailureStays | src/bsky2llm/markdown_creator.py:221-245 | an exception from one reply ends the whole walk |
| MarkdownCreator.ThreadToMarkdown | src/bsky2llm/markdown_creator.py:249-310 | renders `thread_data["thread"]` and joins the fragments with "" (`ThreadMarkdown`) |
| MarkdownCreator.FilterPrunesSubtree | src/bsky2llm/markdown_creator.py:164-166 | a post the filter rejects removes the node and its whole subtree |
| MarkdownCreator.DepthLimit | src/bsky2llm/markdown_creator.py:218 | without replies, or at the depth limit, a node writes at most its own fragment |
| MarkdownCreator.FormatFailures | src/bsky2llm/markdown_creator.py:194-215 | a KeyError writes the fallback and still visits the replies; any other format error drops the node and its subtree |
| MarkdownCreator.FallbackIndexPrefix | src/bsky2llm/markdown_creator.py:197-198 | with indices, the fallback is the fragment without indices behind `[index] ` |
| ComposeMd.AuthorNames | src/bsky2llm/compose_md.py:41-43 | the name is `display_name` when truthy, else `handle` (or 'unknown'); the handle is 'unknown' when absent; a non-dict author raises |
| ComposeMd.HeaderStart | src/bsky2llm/compose_md.py:46 | every header begins with `## [` |
| ComposeMd.IndexIsPath | src/bsky2llm/compose_md.py:57 | top-level replies are numbered `k`, and a nested reply's index is the dotted path `parent.k` |
| ComposeMd.IndexStart | src/bsky2llm/compose_md.py:57 | a reply index never starts with a newline |
| ComposeMd.FailureStays | src/bsky2llm/compose_md.py:55-85 | once a reply raises, later replies are never reached |
| ComposeMd.RepliesStep | src/bsky2llm/compose_md.py:55-77 | one more reply extends the lines by its entry, or raises its exception |
| ComposeMd.AppendReply | src/bsky2llm/compose_md.py:57-77 | the loop body appends `ReplyEntry`: header, the text when non-empty, `---\n`, then the nested replies |
| ComposeMd.ProcessReplies | src/bsky2llm/compose_md.py:54-77 | the recursive closure appends `Replies(replies, prefix)` or raises its exception |
| ComposeMd.ComposeThreadMarkdown | src/bsky2llm/compose_md.py:20-95 | the function returns `Outline(threadData)` |
| ComposeMd.ThreadBody | src/bsky2llm/compose_md.py:37-88 | the `try` block returns `ThreadLines`: the header, the text when truthy, the replies, or the message of the exception raised |
| ComposeMd.RootHeaderFirst | src/bsky2llm/compose_md.py:46-51 | the root header `## [name (@handle)](https://bsky.app/profile/handle)` is the first line; `\ntext\n` follows iff the text is truthy |
| ComposeMd.EntryLayout | src/bsky2llm/compose_md.py:65-77 | a reply's lines are `idx. ## [...]`, its text only when non-empty, `---\n`, then its descendants |
| ComposeMd.RepliesStart | src/bsky2llm/compose_md.py:54-73 | a non-empty run of replies starts with a line that does not start with a newline |
| ComposeMd.FirstEntry | src/bsky2llm/compose_md.py:55-65 | the first line of a run is the first line of the first reply that writes anything |
| ComposeMd.NoPostsExactlyWhenFalsy | src/bsky2llm/compose_md.py:91-95 | the two-line "No posts could be processed" text is the output iff the thread data is falsy |
| ComposeMd.HeaderOutlineStart | src/bsky2llm/compose_md.py:39-46 | truthy thread data that raises nothing produces output that starts with the root's header (so its third character is a space) |
| ComposeMd.ErrorTextStart | src/bsky2llm/compose_md.py:83-88 | the output after an exception starts with "# Error Generating Markdown" (third character `E`, unlike the header's space and the notice's `N`) |
| ComposeMd.ErrorOutput | src/bsky2llm/compose_md.py:83-88 | after an exception the output is the fixed three-line error text around its message |
| ComposeMd.NonDictReplyFails | src/bsky2llm/compose_md.py:60 | a reply that is not a dict turns the whole output into the error text |
| UrlConverter.LeadInComplete | src/bsky2llm/url_converter.py:61 | each of `http(s)://(www.)bsky.app/profile/` is recognised in front of anything |
| UrlConverter.LeadInSound | src/bsky2llm/url_converter.py:61 | whatever is recognised is one of those four lead-ins |
| UrlConverter.MatchPostUrlComplete | src/bsky2llm/url_converter.py:61-69 | every `LEAD H/post/P…` with H slash-free and P the maximal run free of `/?&#` yields (H, P) |
| UrlConverter.MatchPostUrlSound | src/bsky2llm/url_converter.py:61-69 | whatever matches has that shape |
| UrlConverter.MatchAtUriComplete | src/bsky2llm/url_converter.py:105-114 | every `at://A/B/C…` with non-empty slash-free segments yields (A, B, C) |
| UrlConverter.MatchAtUriSound | src/bsky2llm/url_converter.py:105-114 | whatever matches has that shape |
| UrlConverter.UrlToUriIdempotent | src/bsky2llm/url_converter.py:56-58 | a result starts with `at://`, so converting it again returns it unchanged |
| UrlConverter.UriToUrlIdempotent | src/bsky2llm/url_converter.py:100-102 | a result starts with `http`, so converting it again returns it unchanged |
| UrlConverter.OtherCollectionRefused | src/bsky2llm/url_converter.py:117-119 | a record of another collection gives None whatever the resolver says |
| UrlConverter.ConvertUrlToUri | src/bsky2llm/url_converter.py:39-81 | `convert_url_to_uri`: an `at://` text is returned unchanged, every result starts with `at://`, and any other text converts only if it matches the post-link pattern. UrlToUriCases, MatchPostUrlSound and MatchPostUrlComplete state the rest |
| UrlConverter.ConvertUriToUrl | src/bsky2llm/url_converter.py:83-139 | `convert_uri_to_url`: an `http` text is returned unchanged, every result starts with `http`, and any other text converts only if it is an AT-URI of the post collection. UriToUrlCases, OtherCollectionRefused, MatchAtUriSound and MatchAtUriComplete state the rest |
| UrlConverter.UrlToUriCases | src/bsky2llm/url_converter.py:68-81 | a canonical link gives None when the DID look-up fails or is "", else `at://DID/app.bsky.feed.post/P` |
| UrlConverter.UriToUrlCases | src/bsky2llm/url_converter.py:122-135 | a post URI gives None when the handle look-up fails or is "", else `https://bsky.app/profile/H/post/C` |
| UrlConverter.UrlToPostUri | src/bsky2llm/url_converter.py:68-81 | a canonical link converts to the post's AT-URI when its handle resolves |
| UrlConverter.PostUriToUrl | src/bsky2llm/url_converter.py:122-135 | a post's AT-URI converts to its canonical link when its DID resolves |
| UrlConverter.UrlRoundTrip | src/bsky2llm/url_converter.py:39-81 | with inverse resolvers, a canonical link converts to a URI and back to itself |
| UrlConverter.UriRoundTrip | src/bsky2llm/url_converter.py:122-135 | with inverse resolvers, a post URI whose record key avoids `/?&#` converts to a link and back to itself |
| ThreadFromUrl.ConvertUrlToUri | src/bsky2llm/get_thread_from_url.py:23-83 | `convert_url_to_uri` as written: only links with the accepted prefix convert, and every result starts with `at://`. AsWrittenAgrees, ProfileSuffixRejected, QueryIgnored and TrailingSlashIgnored state the rest |
| ThreadFromUrl.ConvertUrlToUriFixed | src/bsky2llm/get_thread_from_url.py:23-83 | the converter with the intended `split('profile/', 1)`: only links with the accepted prefix convert, and every result starts with `at://`. FixedAgrees states it equals `url_converter` on canonical links |
| ThreadFromUrl.Resolve | src/bsky2llm/get_thread_from_url.py:47-73 | the shared tail after the cut: every result starts with `at://`. PostSplit and CanonicalResolve state the rest |
| ThreadFromUrl.PostUrlHasPrefix | src/bsky2llm/get_thread_from_url.py:36 | the canonical link is `https://bsky.app/profile/` followed by `H/post/P` |
| ThreadFromUrl.FirstProfile | src/bsky2llm/get_thread_from_url.py:44 | in an accepted link the first "profile/" is the prefix's own |
| ThreadFromUrl.CanonicalCleanUp | src/bsky2llm/get_thread_from_url.py:36-44 | on a canonical link, the query cut and the slash strip change nothing, and the text after "profile/" is `H/post/P` |
| ThreadFromUrl.NoQueryInPostUrl | src/bsky2llm/get_thread_from_url.py:41 | a canonical link whose handle and record key hold no '?' holds no '?', so the query cut keeps it whole |
| ThreadFromUrl.CanonicalResolve | src/bsky2llm/get_thread_from_url.py:47-70 | splitting `H/post/P` at "/post/", stripping, resolving and building the URI agrees with the regex converter given the same look-up, for a handle that needs no URL-encoding |
| ThreadFromUrl.PostSplit | src/bsky2llm/get_thread_from_url.py:47-51 | `H/post/R` with H free of '/' contains "/post/" and splits into exactly H and R |
| ThreadFromUrl.FixedAgrees | src/bsky2llm/get_thread_from_url.py:36-70 | with the intended split, every canonical link whose handle needs no URL-encoding converts as in `url_converter`: None on a failed or empty look-up, else the post URI |
| ThreadFromUrl.NoSecondProfile | src/bsky2llm/get_thread_from_url.py:44 | when `H/` holds no "profile/", cutting `H/post/P` at a second "profile/" changes nothing |
| ThreadFromUrl.NoProfileAt | src/bsky2llm/get_thread_from_url.py:44 | a "profile/" can start at an offset of `H/post/R` only where one starts in `H/` |
| ThreadFromUrl.AsWrittenAgrees | src/bsky2llm/get_thread_from_url.py:36-70 | the code as written converts a canonical link as `url_converter` does when the handle needs no URL-encoding and does not end in "profile" |
| ThreadFromUrl.ProfileSuffixRejected | src/bsky2llm/get_thread_from_url.py:44-48 | the code as written refuses every link whose handle ends in "profile" |
| ThreadFromUrl.CutInStem | src/bsky2llm/get_thread_from_url.py:44 | splitting `STEMprofile/post/RKEY` on "profile/" keeps at most the stem as the profile part |
| ThreadFromUrl.OtherLeadInsRefused | src/bsky2llm/get_thread_from_url.py:36-37 | `http://` and `www.` links, which `url_converter` accepts, give None |
| ThreadFromUrl.QueryIgnored | src/bsky2llm/get_thread_from_url.py:41 | everything from the first `?` on is ignored |
| ThreadFromUrl.TrailingSlashIgnored | src/bsky2llm/get_thread_from_url.py:41 | a trailing `/` is ignored |

## Left out

- Network calls are not modelled. The handle/DID look-ups (`_resolve_did`, the `getHandle` and `resolveHandle` requests) are `Resolver` parameters. A failed request, a raised exception and a missing or non-string field all become `None`. `get_post_thread` itself is not modelled.
- Logging, `setup_logging`, every `main`, and `os.makedirs` in `thread_to_markdown` are I/O.
- The `process_media` branches of `markdown_creator._process_thread_node` are not modelled. They call video and image processing modules that are not part of this model, and they write files. The model fixes `process_media` to False.
- MarkdownCreator.Format: models only `{name}` fields with plain keyword names, `{{` and `}}`, and KeyError. Format specs, conversions, attribute/index fields and positional `{}` all become one undifferentiated formatting error.
- Json.PyStr: renders a list or dict as a fixed marker, not Python's `repr`. Floats are not modelled: numbers are integers.
- MarkdownCreator.EmbedOf: the unguarded `.get("value", {}).get("text")` on a non-dict quoted `value` is an exception outside the `try` block. It is modelled as the whole walk failing (`None`), not with its message.
- MarkdownCreator.RenderOptions: the filter is a total pure function. A filter that raises is not modelled.
- ComposeMd.Replies: a non-empty dict or string of replies raises at its first element (`'str' object has no attribute 'get'`). Dict iteration order never matters, because the first key already fails.
- PostThread.ProcessThreadNode, MarkdownCreator.ProcessThreadNode and ComposeMd.ProcessReplies recurse without a depth bound. Python's recursion limit (RecursionError on very deep threads) is not modelled.
- ThreadFromUrl.CanonicalResolve, ThreadFromUrl.FixedAgrees and ThreadFromUrl.AsWrittenAgrees: both converters are given the same `Resolver`. That holds only for handles that need no URL-encoding. `url_converter` pastes the handle raw into the query string (url_converter.py:32). `get_thread_from_url` sends it as an encoded parameter (get_thread_from_url.py:59-60). So a handle holding '#', '&', '+', '%' or a space reaches the service differently. These three lemmas require a handle without those characters, and the model does not say what either converter gives for one.
- MarkdownCreator.DepthLimit: states that at most one fragment is written. It does not say which fragment.

## Findings

| source | as written | input that shows it | evidently intended | confidence | as-written member | corrected member |
|---|---|---|---|---|---|---|
| src/bsky2llm/get_thread_from_url.py:44 | `clean_url.split('profile/')[1]` keeps only the text between the first and second "profile/" | `https://bsky.app/profile/did:plc:aaaaaaaaaaaaaaaaaprofile/post/3abc`: the profile part is cut to `did:plc:aaaaaaaaaaaaaaaaa`, loses "/post/", and the link is refused | `clean_url.split('profile/', 1)[1]`: everything after the first "profile/"; FixedAgrees proves that version agrees with `url_converter` on canonical links | low (a handle or DID ending in "profile" is rare), not executed | ThreadFromUrl.ProfileSuffixRejected | ThreadFromUrl.ConvertUrlToUriFixed |
