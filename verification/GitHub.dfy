/**
 * What `GitHubMonitor.get_latest_commit`, `get_latest_tag` and `get_latest_release`
 * keep from a GitHub API reply. The HTTP request itself is not modelled: a fetch is
 * an optional API record, `None` standing for an empty list, a 404 or any failure.
 */
module GitHub {

  import opened Wrappers
  import opened Text

  /** The fields of `GET /repos/{repo}/commits` that the monitor reads from the first entry. */
  datatype ApiCommit = ApiCommit(sha: string, message: string, authorName: string, authorDate: string, htmlUrl: string)

  /** The fields of `GET /repos/{repo}/tags` that the monitor reads from the first entry. */
  datatype ApiTag = ApiTag(name: string, commitSha: string)

  /** The fields of `GET /repos/{repo}/releases/latest`; `name` and `body` may be JSON null. */
  datatype ApiRelease = ApiRelease(tagName: string, name: Option<string>, publishedAt: string, htmlUrl: string, body: Option<string>)

  /** The latest commit as the monitor keeps it. */
  datatype Commit = Commit(sha: string, message: string, author: string, date: string, url: string)

  /** The latest tag as the monitor keeps it. */
  datatype Tag = Tag(name: string, sha: string, url: string)

  /** The latest release as the monitor keeps it. */
  datatype Release = Release(tag: string, name: string, publishedAt: string, url: string, body: string)

  /** A fresh observation of one artifact kind. */
  datatype Marker = OfCommit(commit: Commit) | OfTag(tag: Tag) | OfRelease(release: Release)

  /** Length of the short commit id. */
  const ShortShaLength := 7

  /** Longest release body kept. */
  const BodyLimit := 200

  /** The commit record: seven-character id, first line of the message. */
  function CommitOf(api: ApiCommit): (c: Commit)
    ensures c.sha <= api.sha && |c.sha| == if |api.sha| < ShortShaLength then |api.sha| else ShortShaLength
    ensures '\n' !in c.message && c.message <= api.message
    ensures |c.message| < |api.message| ==> api.message[|c.message|] == '\n'
    ensures c.author == api.authorName && c.date == api.authorDate && c.url == api.htmlUrl
  {
    Commit(Take(api.sha, ShortShaLength), FirstLine(api.message), api.authorName, api.authorDate, api.htmlUrl)
  }

  /** Web page of a tag; the tag name is the last path segment. */
  function TagPage(repo: string, name: string): (url: string)
    ensures DropPrefix(url, "https://github.com/" + repo + "/releases/tag/") == Some(name)
  {
    "https://github.com/" + repo + "/releases/tag/" + name
  }

  /** The tag record: the tag's name, the short id of the commit it points to, its page. */
  function TagOf(api: ApiTag, repo: string): (t: Tag)
    ensures t.name == api.name
    ensures t.sha <= api.commitSha && |t.sha| == if |api.commitSha| < ShortShaLength then |api.commitSha| else ShortShaLength
    ensures DropPrefix(t.url, "https://github.com/" + repo + "/releases/tag/") == Some(api.name)
  {
    Tag(api.name, Take(api.commitSha, ShortShaLength), TagPage(repo, api.name))
  }

  /**
   * The release record: a missing or empty display name falls back to the tag name,
   * and the body is cut to its first 200 characters, or empty when missing.
   */
  function ReleaseOf(api: ApiRelease): (r: Release)
    ensures r.tag == api.tagName && r.publishedAt == api.publishedAt && r.url == api.htmlUrl
    ensures r.name == if Truthy(api.name) then api.name.value else api.tagName
    ensures Truthy(api.body) ==> r.body <= api.body.value && |r.body| == if |api.body.value| < BodyLimit then |api.body.value| else BodyLimit
    ensures !Truthy(api.body) ==> r.body == ""
  {
    Release(
      api.tagName,
      if Truthy(api.name) then api.name.value else api.tagName,
      api.publishedAt,
      api.htmlUrl,
      if Truthy(api.body) then Take(api.body.value, BodyLimit) else "")
  }
}
