/** src/bsky2llm/compose_md.py: the outline composer over the normalised
    thread of `get_post_thread`. The root becomes a linked author header
    and its text; replies are numbered 1, 2, ... and nested replies 1.1,
    1.2, ... in preorder; any exception replaces the whole output with a
    fixed error message and an empty output with a fixed notice. */
module ComposeMd {
  import opened Wrappers
  import opened Strings
  import opened Json

  // ---------------------------------------------------------------------
  // The exceptions the composer can run into

  /** The AttributeError message of `v.get(...)` on a value that is not a dict. */
  function NoGet(v: Json): string
  {
    "'" + TypeName(v) + "' object has no attribute 'get'"
  }

  /** The TypeError message of `for x in v` on a value that cannot be iterated. */
  function NotIterable(v: Json): string
  {
    "'" + TypeName(v) + "' object is not iterable"
  }

  // ---------------------------------------------------------------------
  // Lines

  /** The author's name and handle: `display_name` when truthy, else the
      `handle` value (`'unknown'` when the key is absent); the handle is
      `'unknown'` when absent. An author that is not a dict has no `.get`. */
  function AuthorNames(author: Json): (r: Result<(string, string), string>)
    ensures r.Err? <==> !author.JObj?
    ensures r.Err? ==> r.error == NoGet(author)
    ensures r.Ok? ==> r.value.1 == (if "handle" in author.obj then PyStr(author.obj["handle"]) else "unknown")
    ensures r.Ok? ==>
      r.value.0 == (if "display_name" in author.obj && Truthy(author.obj["display_name"])
                    then PyStr(author.obj["display_name"]) else r.value.1)
  {
    if !author.JObj? then Err(NoGet(author))
    else
      var handle := Get(author.obj, "handle", JStr("unknown"));
      Ok((PyStr(Or(Get(author.obj, "display_name", JStr("")), handle)), PyStr(handle)))
  }

  /** The linked author header `## [name (@handle)](https://bsky.app/profile/handle)`. */
  function Header(name: string, handle: string): string
  {
    "## [" + name + " (@" + handle + ")](https://bsky.app/profile/" + handle + ")"
  }

  /** The index of the i-th (1-based) reply under a prefix: the prefix
      followed by i, or i alone at the top level. */
  function ReplyIndex(prefix: string, i: nat): string
  {
    if prefix != "" then prefix + IntToString(i) else IntToString(i)
  }

  /** The lines `process_replies(replies, prefix)` appends, or the message
      of the exception it raises. A list is walked reply by reply; a
      non-empty string or dict yields strings, and the first `.get` on one
      raises; None, a bool or a number is not iterable. */
  function Replies(replies: Json, prefix: string): Result<seq<string>, string>
    decreases replies, 1
  {
    match replies
    case JArr(a) => RepliesUpTo(replies, prefix, |a|)
    case JStr(s) => if s == "" then Ok([]) else Err(NoGet(JStr("")))
    case JObj(m) => if m == map[] then Ok([]) else Err(NoGet(JStr("")))
    case _ => Err(NotIterable(replies))
  }

  /** The lines of the first n replies of a list, in order. */
  function RepliesUpTo(replies: Json, prefix: string, n: nat): Result<seq<string>, string>
    requires replies.JArr? && n <= |replies.arr|
    decreases replies, 0, n
  {
    if n == 0 then Ok([])
    else
      match RepliesUpTo(replies, prefix, n - 1)
      case Err(e) => Err(e)
      case Ok(lines) =>
        match ReplyEntry(replies.arr[n - 1], ReplyIndex(prefix, n))
        case Err(e) => Err(e)
        case Ok(entry) => Ok(lines + entry)
  }

  /** The lines of one reply: `index. ` and the header, its text and a
      newline when the text is truthy, the `---` separator, then its own
      replies under `index.` when it has a "replies" key. */
  function ReplyEntry(reply: Json, index: string): Result<seq<string>, string>
    decreases reply, 2
  {
    if !reply.JObj? then Err(NoGet(reply))
    else
      match AuthorNames(Get(reply.obj, "author", EmptyObj))
      case Err(e) => Err(e)
      case Ok((name, handle)) =>
        var content := Get(reply.obj, "text", JStr(""));
        var own := [index + ". " + Header(name, handle)]
          + (if Truthy(content) then [PyStr(content) + "\n"] else [])
          + ["---\n"];
        if "replies" !in reply.obj then Ok(own)
        else
          match Replies(reply.obj["replies"], index + ".")
          case Err(e) => Err(e)
          case Ok(nested) => Ok(own + nested)
  }

  /** The lines the `try` block builds, or the message of the exception
      that leaves it: nothing for falsy thread data, otherwise the root's
      header, its text when truthy, and its replies when it has the key. */
  function ThreadLines(threadData: Json): Result<seq<string>, string>
  {
    if !Truthy(threadData) then Ok([])
    else if !threadData.JObj? then Err(NoGet(threadData))
    else
      match AuthorNames(Get(threadData.obj, "author", EmptyObj))
      case Err(e) => Err(e)
      case Ok((name, handle)) =>
        var content := Get(threadData.obj, "text", JStr(""));
        var own := [Header(name, handle)] + (if Truthy(content) then ["\n" + PyStr(content) + "\n"] else []);
        if "replies" !in threadData.obj then Ok(own)
        else
          match Replies(threadData.obj["replies"], "")
          case Err(e) => Err(e)
          case Ok(nested) => Ok(own + nested)
  }

  /** The fixed three lines that replace the output after an exception. */
  function ErrorLines(message: string): seq<string>
  {
    ["# Error Generating Markdown",
     "\nAn error occurred while generating the markdown: " + message,
     "\nPlease check the logs for more details."]
  }

  /** The fixed two lines of an empty output. */
  const NoPostsLines: seq<string> :=
    ["# No posts could be processed", "\nThe thread data did not contain any processable posts."]

  /** What `compose_thread_markdown` returns. */
  function Outline(threadData: Json): string
  {
    var lines := match ThreadLines(threadData)
      case Err(e) => ErrorLines(e)
      case Ok(ls) => ls;
    Join("\n", if lines == [] then NoPostsLines else lines)
  }

  /** Appending the outcome of a call to the list built so far. */
  function Extend(markdown: seq<string>, r: Result<seq<string>, string>): Result<seq<string>, string>
  {
    match r
    case Err(e) => Err(e)
    case Ok(lines) => Ok(markdown + lines)
  }

  // ---------------------------------------------------------------------
  // The composer

  /** Once a reply raises, the rest of the list is never reached. */
  lemma {:induction false} FailureStays(replies: Json, prefix: string, i: nat, j: nat)
    requires replies.JArr? && i <= j <= |replies.arr|
    requires RepliesUpTo(replies, prefix, i).Err?
    ensures RepliesUpTo(replies, prefix, j) == RepliesUpTo(replies, prefix, i)
    decreases j - i
  {
    if i < j {
      FailureStays(replies, prefix, i, j - 1);
    }
  }

  /** One more reply extends the lines by its entry, or raises its exception. */
  lemma RepliesStep(replies: Json, prefix: string, i: nat, markdown: seq<string>, out: seq<string>)
    requires replies.JArr? && i < |replies.arr|
    requires Extend(markdown, RepliesUpTo(replies, prefix, i)) == Ok(out)
    ensures Extend(markdown, RepliesUpTo(replies, prefix, i + 1))
         == Extend(out, ReplyEntry(replies.arr[i], ReplyIndex(prefix, i + 1)))
  {
    var lines := RepliesUpTo(replies, prefix, i).value;
    var entry := ReplyEntry(replies.arr[i], ReplyIndex(prefix, i + 1));
    if entry.Ok? {
      assert out + entry.value == markdown + (lines + entry.value);
    }
  }

  /** `process_replies`: appends the lines of every reply, and of its
      replies after it, to `markdown`, or reports the exception raised. */
  method ProcessReplies(replies: Json, prefix: string, markdown: seq<string>) returns (r: Result<seq<string>, string>)
    ensures r == Extend(markdown, Replies(replies, prefix))
    decreases replies, 1
  {
    if !replies.JArr? {
      if replies.JStr? || replies.JObj? {
        if (replies.JStr? && replies.s != "") || (replies.JObj? && replies.obj != map[]) {
          return Err(NoGet(JStr("")));
        }
        return Ok(markdown);
      }
      return Err(NotIterable(replies));
    }
    var a := replies.arr;
    var out := markdown;
    assert markdown + [] == markdown;
    for i := 0 to |a|
      invariant Extend(markdown, RepliesUpTo(replies, prefix, i)) == Ok(out)
    {
      var currentIndex := if prefix != "" then prefix + IntToString(i + 1) else IntToString(i + 1);
      assert currentIndex == ReplyIndex(prefix, i + 1);
      var step := AppendReply(a[i], currentIndex, out);
      RepliesStep(replies, prefix, i, markdown, out);
      if step.Err? {
        FailureStays(replies, prefix, i + 1, |a|);
        return Err(step.error);
      }
      out := step.value;
    }
    r := Ok(out);
  }

  /** The body of the loop of `process_replies` for one reply: appends
      its header, its text, the separator and its own replies to
      `markdown`, or reports the exception raised. */
  method AppendReply(reply: Json, currentIndex: string, markdown: seq<string>) returns (r: Result<seq<string>, string>)
    ensures r == Extend(markdown, ReplyEntry(reply, currentIndex))
    decreases reply, 2
  {
    if !reply.JObj? {
      return Err(NoGet(reply));
    }
    var author := Get(reply.obj, "author", EmptyObj);
    if !author.JObj? {
      return Err(NoGet(author));
    }
    var authorHandle := Get(author.obj, "handle", JStr("unknown"));
    var authorName := Or(Get(author.obj, "display_name", JStr("")), authorHandle);
    var out := markdown + [currentIndex + ". " + Header(PyStr(authorName), PyStr(authorHandle))];
    var content := Get(reply.obj, "text", JStr(""));
    if Truthy(content) {
      out := out + [PyStr(content) + "\n"];
    }
    out := out + ["---\n"];
    ghost var own := [currentIndex + ". " + Header(PyStr(authorName), PyStr(authorHandle))]
      + (if Truthy(content) then [PyStr(content) + "\n"] else []) + ["---\n"];
    assert out == markdown + own;
    assert AuthorNames(author) == Ok((PyStr(authorName), PyStr(authorHandle)));
    if "replies" in reply.obj {
      var nested := ProcessReplies(reply.obj["replies"], currentIndex + ".", out);
      if nested.Err? {
        return Err(nested.error);
      }
      out := nested.value;
      assert out == markdown + (own + Replies(reply.obj["replies"], currentIndex + ".").value);
    }
    r := Ok(out);
  }

  /** The `try` block of `compose_thread_markdown`: the root's header,
      its text, then the replies, or the message of what was raised. */
  method ThreadBody(threadData: Json) returns (r: Result<seq<string>, string>)
    ensures r == ThreadLines(threadData)
  {
    var markdown: seq<string> := [];
    if !Truthy(threadData) {
      return Ok(markdown);
    }
    if !threadData.JObj? {
      return Err(NoGet(threadData));
    }
    var author := Get(threadData.obj, "author", EmptyObj);
    if !author.JObj? {
      return Err(NoGet(author));
    }
    var authorHandle := Get(author.obj, "handle", JStr("unknown"));
    var authorName := Or(Get(author.obj, "display_name", JStr("")), authorHandle);
    assert AuthorNames(author) == Ok((PyStr(authorName), PyStr(authorHandle)));
    markdown := markdown + [Header(PyStr(authorName), PyStr(authorHandle))];
    var content := Get(threadData.obj, "text", JStr(""));
    if Truthy(content) {
      markdown := markdown + ["\n" + PyStr(content) + "\n"];
    }
    assert markdown == [Header(PyStr(authorName), PyStr(authorHandle))]
      + (if Truthy(content) then ["\n" + PyStr(content) + "\n"] else []);
    assert ThreadLines(threadData) ==
      if "replies" !in threadData.obj then Ok(markdown) else Extend(markdown, Replies(threadData.obj["replies"], ""));
    if "replies" in threadData.obj {
      r := ProcessReplies(threadData.obj["replies"], "", markdown);
    } else {
      r := Ok(markdown);
    }
  }

  /** `compose_thread_markdown`: the lines of the thread joined by
      newlines, the error message after an exception, the notice when
      nothing was produced. */
  method ComposeThreadMarkdown(threadData: Json) returns (md: string)
    ensures md == Outline(threadData)
  {
    var r := ThreadBody(threadData);
    var markdown := if r.Err? then ErrorLines(r.error) else r.value;
    if markdown == [] {
      markdown := NoPostsLines;
    }
    md := Join("\n", markdown);
  }

  // ---------------------------------------------------------------------
  // Properties

  /** The first line opens the joined text. */
  lemma JoinHead(lines: seq<string>)
    requires |lines| > 0
    ensures lines[0] <= Join("\n", lines)
  {
  }

  /** Every header starts with `## [`. */
  lemma HeaderStart(name: string, handle: string)
    ensures |Header(name, handle)| >= 4 && Header(name, handle)[..4] == "## ["
  {
    var h := Header(name, handle);
    assert h == "## [" + (name + " (@" + handle + ")](https://bsky.app/profile/" + handle + ")");
  }

  /** Truthy thread data that raises nothing yields the root's header first. */
  lemma RootHeaderFirst(threadData: Json)
    requires Truthy(threadData) && ThreadLines(threadData).Ok?
    ensures threadData.JObj? && Get(threadData.obj, "author", EmptyObj).JObj?
    ensures var lines, names := ThreadLines(threadData).value, AuthorNames(Get(threadData.obj, "author", EmptyObj)).value;
      |lines| > 0 && lines[0] == Header(names.0, names.1)
      && (Truthy(Get(threadData.obj, "text", JStr(""))) <==>
            |lines| > 1 && lines[1] == "\n" + PyStr(Get(threadData.obj, "text", JStr(""))) + "\n")
  {
    var content := Get(threadData.obj, "text", JStr(""));
    var lines := ThreadLines(threadData).value;
    var names := AuthorNames(Get(threadData.obj, "author", EmptyObj)).value;
    var own := [Header(names.0, names.1)] + (if Truthy(content) then ["\n" + PyStr(content) + "\n"] else []);
    assert lines[..|own|] == own;
    if !Truthy(content) && |lines| > 1 {
      // The second line is then the first of the replies, which is an
      // index followed by ". ## [", never a newline.
      var nested := lines[1..];
      assert "replies" in threadData.obj && Replies(threadData.obj["replies"], "") == Ok(nested);
      RepliesStart(threadData.obj["replies"], "");
      assert lines[1][0] != '\n';
    }
  }

  /** The first line of a reply's entry is its index and `. ## [`, and the
      text of its header never starts with a newline. */
  lemma EntryLayout(reply: Json, index: string)
    requires ReplyEntry(reply, index).Ok?
    ensures reply.JObj? && Get(reply.obj, "author", EmptyObj).JObj?
    ensures var lines, names := ReplyEntry(reply, index).value, AuthorNames(Get(reply.obj, "author", EmptyObj)).value;
      var content := Get(reply.obj, "text", JStr(""));
      var k := if Truthy(content) then 2 else 1;
      |lines| > k
      && lines[0] == index + ". " + Header(names.0, names.1)
      && (Truthy(content) ==> lines[1] == PyStr(content) + "\n")
      && lines[k] == "---\n"
      && ("replies" !in reply.obj ==> |lines| == k + 1)
      && ("replies" in reply.obj ==> Replies(reply.obj["replies"], index + ".") == Ok(lines[k + 1..]))
  {
    var names := AuthorNames(Get(reply.obj, "author", EmptyObj)).value;
    var content := Get(reply.obj, "text", JStr(""));
    var own := [index + ". " + Header(names.0, names.1)]
      + (if Truthy(content) then [PyStr(content) + "\n"] else []) + ["---\n"];
    var lines := ReplyEntry(reply, index).value;
    assert lines[..|own|] == own;
    if "replies" in reply.obj {
      assert lines[|own|..] == Replies(reply.obj["replies"], index + ".").value;
    }
  }

  /** A non-empty run of replies starts with the first reply's entry,
      whose first character is never a newline. */
  lemma RepliesStart(replies: Json, prefix: string)
    requires prefix == [] || prefix[0] != '\n'
    requires Replies(replies, prefix).Ok? && Replies(replies, prefix).value != []
    ensures Replies(replies, prefix).value[0] != [] && Replies(replies, prefix).value[0][0] != '\n'
  {
    var a := replies.arr;
    var k := FirstEntry(replies, prefix, |a|);
    var index := ReplyIndex(prefix, k + 1);
    EntryLayout(a[k], index);
    var first := ReplyEntry(a[k], index).value[0];
    assert first == index + ". " + Header(AuthorNames(Get(a[k].obj, "author", EmptyObj)).value.0, AuthorNames(Get(a[k].obj, "author", EmptyObj)).value.1);
    IndexStart(prefix, k + 1);
  }

  /** A reply index never starts with a newline. */
  lemma IndexStart(prefix: string, i: nat)
    requires prefix == [] || prefix[0] != '\n'
    ensures |ReplyIndex(prefix, i)| > 0 && ReplyIndex(prefix, i)[0] != '\n'
  {
    var s := IntToString(i);
    assert NatToString(i) == s;
  }

  /** The position of the entry that opens a non-empty run of the first n replies. */
  lemma {:induction false} FirstEntry(replies: Json, prefix: string, n: nat) returns (k: nat)
    requires replies.JArr? && n <= |replies.arr|
    requires RepliesUpTo(replies, prefix, n).Ok? && RepliesUpTo(replies, prefix, n).value != []
    ensures k < n
    ensures ReplyEntry(replies.arr[k], ReplyIndex(prefix, k + 1)).Ok?
    ensures ReplyEntry(replies.arr[k], ReplyIndex(prefix, k + 1)).value != []
    ensures RepliesUpTo(replies, prefix, n).value[0] == ReplyEntry(replies.arr[k], ReplyIndex(prefix, k + 1)).value[0]
  {
    var before := RepliesUpTo(replies, prefix, n - 1).value;
    var entry := ReplyEntry(replies.arr[n - 1], ReplyIndex(prefix, n)).value;
    assert RepliesUpTo(replies, prefix, n).value == before + entry;
    if before != [] {
      k := FirstEntry(replies, prefix, n - 1);
    } else {
      k := n - 1;
      assert before + entry == entry;
    }
  }

  /** The "no posts" notice is the output exactly when the thread data is
      falsy; it is then the two fixed lines joined by a newline. */
  lemma NoPostsExactlyWhenFalsy(threadData: Json)
    ensures Outline(threadData) == Join("\n", NoPostsLines) <==> !Truthy(threadData)
    ensures !Truthy(threadData) ==>
      Outline(threadData) == "# No posts could be processed" + "\n" + "\nThe thread data did not contain any processable posts."
  {
    NoticeText();
    if Truthy(threadData) {
      match ThreadLines(threadData)
      case Err(e) =>
        ErrorTextStart(e);
      case Ok(lines) =>
        HeaderOutlineStart(threadData);
    } else {
      assert ThreadLines(threadData) == Ok([]);
    }
  }

  /** The notice is its two lines around one newline; its third character is `N`. */
  lemma NoticeText()
    ensures Join("\n", NoPostsLines) == "# No posts could be processed" + "\n" + "\nThe thread data did not contain any processable posts."
    ensures |Join("\n", NoPostsLines)| > 2 && Join("\n", NoPostsLines)[2] == 'N'
  {
    JoinTwo(NoPostsLines[0], NoPostsLines[1]);
  }

  /** The error text starts with its heading "# Error Generating
      Markdown", whose third character `E` no header or notice has there. */
  lemma ErrorTextStart(e: string)
    ensures "# Error Generating Markdown" <= Join("\n", ErrorLines(e))
    ensures |Join("\n", ErrorLines(e))| > 2 && Join("\n", ErrorLines(e))[2] == 'E'
  {
    JoinHead(ErrorLines(e));
  }

  /** A truthy thread that raises nothing starts its output with the
      root's header, whose third character is a space. */
  lemma HeaderOutlineStart(threadData: Json)
    requires Truthy(threadData) && ThreadLines(threadData).Ok?
    ensures threadData.JObj? && AuthorNames(Get(threadData.obj, "author", EmptyObj)).Ok?
    ensures var names := AuthorNames(Get(threadData.obj, "author", EmptyObj)).value;
      Header(names.0, names.1) <= Outline(threadData)
    ensures |Outline(threadData)| > 2 && Outline(threadData)[2] == ' '
  {
    var lines := ThreadLines(threadData).value;
    RootHeaderFirst(threadData);
    var names := AuthorNames(Get(threadData.obj, "author", EmptyObj)).value;
    HeaderStart(names.0, names.1);
    JoinHead(lines);
    assert Outline(threadData) == Join("\n", lines);
  }

  /** After an exception the output is the fixed error text around its message. */
  lemma ErrorOutput(threadData: Json)
    requires ThreadLines(threadData).Err?
    ensures Outline(threadData) ==
      "# Error Generating Markdown" + "\n"
      + ("\nAn error occurred while generating the markdown: " + ThreadLines(threadData).error) + "\n"
      + "\nPlease check the logs for more details."
  {
    var e := ThreadLines(threadData).error;
    var a, b, c := "# Error Generating Markdown", "\nAn error occurred while generating the markdown: " + e, "\nPlease check the logs for more details.";
    assert ErrorLines(e) == [a, b, c];
    JoinThree(a, b, c);
  }

  /** Joining two lines. */
  lemma JoinTwo(a: string, b: string)
    ensures Join("\n", [a, b]) == a + "\n" + b
  {
    assert [a, b][1..] == [b];
  }

  /** Joining three lines. */
  lemma JoinThree(a: string, b: string, c: string)
    ensures Join("\n", [a, b, c]) == a + "\n" + b + "\n" + c
  {
    assert [a, b, c][1..] == [b, c];
    JoinTwo(b, c);
  }

  /** A reply that is not a dict makes the whole output the error text; if
      no earlier reply raised, its message is the AttributeError of `.get`
      on that reply. */
  lemma NonDictReplyFails(threadData: Json, k: nat)
    requires Truthy(threadData) && threadData.JObj? && Get(threadData.obj, "author", EmptyObj).JObj?
    requires "replies" in threadData.obj && threadData.obj["replies"].JArr?
    requires k < |threadData.obj["replies"].arr| && !threadData.obj["replies"].arr[k].JObj?
    ensures ThreadLines(threadData).Err?
    ensures RepliesUpTo(threadData.obj["replies"], "", k).Ok? ==>
      ThreadLines(threadData).error == NoGet(threadData.obj["replies"].arr[k])
  {
    var replies := threadData.obj["replies"];
    assert RepliesUpTo(replies, "", k + 1).Err?;
    FailureStays(replies, "", k + 1, |replies.arr|);
  }

  /** The index of a reply is its dotted 1-based path: a top-level reply
      at position k is "k", and the k-th reply under the reply at a path
      is that path's index, a dot, and k. */
  lemma IndexIsPath(path: seq<int>, k: nat)
    ensures ReplyIndex("", k) == JoinInts([k])
    ensures |path| > 0 ==> ReplyIndex(JoinInts(path) + ".", k) == JoinInts(path + [k])
  {
    if |path| > 0 {
      JoinIntsSnoc(path, k);
    }
  }
}
