/**
 * `format_commit_message`, `format_tag_message` and `format_release_message`: the
 * (title, content, url) triple sent for a change. Each content format is paired with
 * a parser that reads the fields back, and the round trip is proved.
 */
module Format {

  import opened Wrappers
  import opened Text
  import opened GitHub

  /** What every notifier's `send` receives. */
  datatype Message = Message(title: string, content: string, url: string)

  function CommitContent(c: Commit): string
  {
    "Commit: " + c.sha + "\n" + "作者: " + c.author + "\n" + "消息: " + c.message + "\n" + "时间: " + c.date
  }

  /** The commit message: a title naming the repository, the commit's lines, its page. */
  function FormatCommit(c: Commit, repo: string): (m: Message)
    ensures Unwrap(m.title, "📝 ", " 新提交") == Some(repo)
    ensures m.content == CommitContent(c)
    ensures m.url == c.url
  {
    UnwrapWrapped("📝 ", repo, " 新提交");
    Message("📝 " + repo + " 新提交", CommitContent(c), c.url)
  }

  function TagContent(t: Tag): string
  {
    "标签: " + t.name + "\n" + "Commit: " + t.sha
  }

  /** The tag message: a title naming the repository, the tag's lines, its page. */
  function FormatTag(t: Tag, repo: string): (m: Message)
    ensures Unwrap(m.title, "🏷️ ", " 新标签") == Some(repo)
    ensures m.content == TagContent(t)
    ensures m.url == t.url
  {
    UnwrapWrapped("🏷️ ", repo, " 新标签");
    Message("🏷️ " + repo + " 新标签", TagContent(t), t.url)
  }

  /** The three header lines, each ended by a newline. */
  function ReleaseHeader(r: Release): string
  {
    "版本: " + r.name + "\n" + "标签: " + r.tag + "\n" + "发布时间: " + r.publishedAt + "\n"
  }

  /** The header, then the notes section only when the body is non-empty. */
  function ReleaseContent(r: Release): (content: string)
    ensures content == ReleaseHeader(r) <==> r.body == ""
  {
    ReleaseHeader(r) + if r.body != "" then "\n说明:\n" + r.body + "..." else ""
  }

  /** The release message: a title naming the repository, the release's lines, its page. */
  function FormatRelease(r: Release, repo: string): (m: Message)
    ensures Unwrap(m.title, "🚀 ", " 新版本发布") == Some(repo)
    ensures m.content == ReleaseContent(r)
    ensures m.url == r.url
  {
    UnwrapWrapped("🚀 ", repo, " 新版本发布");
    Message("🚀 " + repo + " 新版本发布", ReleaseContent(r), r.url)
  }

  /** The message for whichever kind the marker is. */
  function FormatMarker(m: Marker, repo: string): Message
  {
    match m
    case OfCommit(c) => FormatCommit(c, repo)
    case OfTag(t) => FormatTag(t, repo)
    case OfRelease(r) => FormatRelease(r, repo)
  }

  // Reading a content back.

  datatype CommitText = CommitText(sha: string, author: string, message: string, date: string)
  datatype TagText = TagText(name: string, sha: string)
  datatype ReleaseText = ReleaseText(name: string, tag: string, publishedAt: string, body: string)

  /** The four labelled lines of a commit content. */
  function ParseCommitContent(content: string): Option<CommitText>
  {
    var lines := Split(content, '\n');
    if |lines| != 4 then None
    else
      var sha := DropPrefix(lines[0], "Commit: ");
      var author := DropPrefix(lines[1], "作者: ");
      var message := DropPrefix(lines[2], "消息: ");
      var date := DropPrefix(lines[3], "时间: ");
      if sha.Some? && author.Some? && message.Some? && date.Some?
      then Some(CommitText(sha.value, author.value, message.value, date.value))
      else None
  }

  /** The two labelled lines of a tag content. */
  function ParseTagContent(content: string): Option<TagText>
  {
    var lines := Split(content, '\n');
    if |lines| != 2 then None
    else
      var name := DropPrefix(lines[0], "标签: ");
      var sha := DropPrefix(lines[1], "Commit: ");
      if name.Some? && sha.Some? then Some(TagText(name.value, sha.value)) else None
  }

  /** Three labelled header lines, then either nothing or a notes section ending in "...". */
  function ParseReleaseContent(content: string): Option<ReleaseText>
  {
    var lines := Split(content, '\n');
    if |lines| < 4 then None
    else
      var name := DropPrefix(lines[0], "版本: ");
      var tag := DropPrefix(lines[1], "标签: ");
      var published := DropPrefix(lines[2], "发布时间: ");
      var rest := lines[3..];
      var body :=
        if rest == [""] then Some("")
        else if |rest| >= 3 && rest[0] == "" && rest[1] == "说明:" then Some(DropSuffix(Join(rest[2..], "\n"), "..."))
        else None;
      if name.Some? && tag.Some? && published.Some? && body.Some?
      then Some(ReleaseText(name.value, tag.value, published.value, body.value))
      else None
  }

  /** Three lines joined by newlines split back into those lines. */
  lemma SplitThreeLines(a: string, b: string, c: string, tail: string)
    requires '\n' !in a && '\n' !in b && '\n' !in c
    ensures Split(a + "\n" + b + "\n" + c + "\n" + tail, '\n') == [a, b, c] + Split(tail, '\n')
  {
    var t2 := c + ['\n'] + tail;
    var t1 := b + ['\n'] + t2;
    assert a + "\n" + b + "\n" + c + "\n" + tail == a + ['\n'] + t1;
    SplitAfter(c, '\n', tail);
    SplitAfter(b, '\n', t2);
    SplitAfter(a, '\n', t1);
  }

  /** A commit whose fields are single lines is read back from its content. */
  lemma CommitContentRoundTrip(c: Commit)
    requires '\n' !in c.sha && '\n' !in c.author && '\n' !in c.message && '\n' !in c.date
    ensures ParseCommitContent(CommitContent(c)) == Some(CommitText(c.sha, c.author, c.message, c.date))
  {
    var l0, l1, l2, l3 := "Commit: " + c.sha, "作者: " + c.author, "消息: " + c.message, "时间: " + c.date;
    assert CommitContent(c) == l0 + "\n" + l1 + "\n" + l2 + "\n" + l3;
    SplitThreeLines(l0, l1, l2, l3);
    SplitNoSeparator(l3, '\n');
    assert Split(CommitContent(c), '\n') == [l0, l1, l2, l3];
  }

  /** A tag whose fields are single lines is read back from its content. */
  lemma TagContentRoundTrip(t: Tag)
    requires '\n' !in t.name && '\n' !in t.sha
    ensures ParseTagContent(TagContent(t)) == Some(TagText(t.name, t.sha))
  {
    var l0, l1 := "标签: " + t.name, "Commit: " + t.sha;
    assert TagContent(t) == l0 + ['\n'] + l1;
    SplitAfter(l0, '\n', l1);
    SplitNoSeparator(l1, '\n');
  }

  /** The notes section splits into an empty line, the label, and the lines of the body. */
  lemma NotesLines(notes: string)
    ensures Split("\n说明:\n" + notes, '\n') == ["", "说明:"] + Split(notes, '\n')
  {
    SplitAfter("说明:", '\n', notes);
    SplitAfter("", '\n', "说明:" + "\n" + notes);
    assert "\n说明:\n" + notes == "" + ['\n'] + ("说明:" + ['\n'] + notes);
  }

  /** The lines of a release content: the three header lines, then those of the notes section. */
  lemma ReleaseLines(r: Release)
    requires '\n' !in r.name && '\n' !in r.tag && '\n' !in r.publishedAt
    ensures var tail := if r.body != "" then "\n说明:\n" + (r.body + "...") else "";
      Split(ReleaseContent(r), '\n') == ["版本: " + r.name, "标签: " + r.tag, "发布时间: " + r.publishedAt] + Split(tail, '\n')
  {
    var l0, l1, l2 := "版本: " + r.name, "标签: " + r.tag, "发布时间: " + r.publishedAt;
    var tail := if r.body != "" then "\n说明:\n" + (r.body + "...") else "";
    assert ReleaseContent(r) == l0 + "\n" + l1 + "\n" + l2 + "\n" + tail;
    SplitThreeLines(l0, l1, l2, tail);
  }

  /**
   * A release whose header fields are single lines is read back from its content,
   * whatever its body holds: an empty body leaves no notes section, any other body
   * is recovered exactly.
   */
  lemma ReleaseContentRoundTrip(r: Release)
    requires '\n' !in r.name && '\n' !in r.tag && '\n' !in r.publishedAt
    ensures ParseReleaseContent(ReleaseContent(r)) == Some(ReleaseText(r.name, r.tag, r.publishedAt, r.body))
  {
    ReleaseLines(r);
    var lines := Split(ReleaseContent(r), '\n');
    var rest := lines[3..];
    if r.body == "" {
      assert rest == [""];
    } else {
      var notes := r.body + "...";
      NotesLines(notes);
      assert rest == ["", "说明:"] + Split(notes, '\n');
      assert rest[2..] == Split(notes, '\n');
      JoinSplit(notes, '\n');
      assert DropSuffix(Join(rest[2..], "\n"), "...") == r.body;
    }
  }
}
