# git-monitor change detection, in Dafny

A model of the core of `scripts/monitor.py` from git-monitor: a script that polls one
GitHub repository (`MONITORED_REPO`) for its latest commit, tag and release, compares
each with what it saw last time, and sends a message through every configured backend
(Telegram, WxPusher, PushPlus) when something it had seen before has changed.

Modules, one per part of the script:

- `Wrappers`: `Option` (Python's `None`) and Python truthiness of an optional string.
- `Text`: `split`, `join`, `replace`, slicing and "first line", as Python defines them,
  with the lemmas that split and join are inverse and that `replace` is split-then-join.
- `GitHub`: what the three `get_latest_*` methods keep from an API reply (short commit id,
  first line of the message, tag page, release name fallback, body cut to 200 characters).
- `Format`: `format_commit_message`, `format_tag_message`, `format_release_message`, each
  with a parser that reads the fields back and a proved round trip.
- `Notify`: the three backends, the request each `send` builds (Telegram text, the HTML
  content shared by WxPusher and PushPlus), the success rule of each `send`, the loop that
  calls every backend, and the rule that picks the backends from the environment.
- `State`: the state record, `_load_state`'s default, and `StateManager.update` as a class
  whose `state` field the method reassigns.
- `Monitor`: one check block of `main` as a specification function `Step` and as the
  method `CheckKind` on the `StateManager`; the three blocks in order (`CheckAll`); and
  `main` itself (`RunOnce`).

The central property: a notification is sent if and only if the kind was seen before
(stored identity not `None`) and its identity changed; the first sighting only records
the identity; an unchanged identity causes no send and no state change at all.

Two points of the script's behaviour that the model keeps exactly:

- An unchanged identity leaves the record untouched: `update` is not called, so
  `last_check` keeps its old value (`scripts/monitor.py:320`, `329-330`).
- The script watches one repository (`MONITORED_REPO`, `scripts/monitor.py:280`) and
  keeps one flat record for it.

## Model

| member | source | states |
|---|---|---|
| Text.Split | scripts/monitor.py:75 | `split('\n')` yields one more part than there are separators, and no part holds the separator |
| Text.SplitJoin | scripts/monitor.py:75 | splitting a join of separator-free parts gives the parts back |
| Text.JoinSplit | scripts/monitor.py:75 | joining the parts of a split with the separator gives the string back |
| Text.FirstLine | scripts/monitor.py:75 | the first line is a prefix of the message, holds no newline, and is either the whole message or is followed by a newline |
| Text.Take | scripts/monitor.py:74 | `s[:n]` is a prefix of `s` of length `min(n, len(s))` |
| Text.Replace | scripts/monitor.py:174 | `replace('\n', rep)` leaves no newline when `rep` has none, and its length grows by `len(rep) - 1` per newline |
| Text.ReplaceIsSplitJoin | scripts/monitor.py:212 | replacing each newline by `<br>` is splitting into lines and joining them with `<br>` |
| GitHub.CommitOf | scripts/monitor.py:72-79 | the kept id is the first 7 characters of the sha; the kept message is the first line; author, date and url are copied |
| GitHub.TagPage | scripts/monitor.py:96 | the tag page is the repository's `releases/tag/` URL, and the tag name is read back from it |
| GitHub.TagOf | scripts/monitor.py:92-97 | the tag keeps its name, the first 7 characters of its commit's sha, and its page URL |
| GitHub.ReleaseOf | scripts/monitor.py:111-117 | the display name falls back to the tag name when missing or empty; the body is its first 200 characters, or empty when missing |
| Format.FormatCommit | scripts/monitor.py:238-247 | the title is `📝 {repo} 新提交` with the repository read back from it, the content is the commit content, and the message links to the commit's page |
| Format.CommitContentRoundTrip | scripts/monitor.py:241-246 | the four labelled lines (id, author, message, time) are read back exactly from the content |
| Format.FormatTag | scripts/monitor.py:250-257 | the title is `🏷️ {repo} 新标签` with the repository read back from it, the content is the tag content, and the message links to the tag's page |
| Format.TagContentRoundTrip | scripts/monitor.py:253-256 | the tag name and commit id are read back exactly from the content |
| Format.FormatRelease | scripts/monitor.py:260-270 | the title is `🚀 {repo} 新版本发布` with the repository read back from it, the content is the release content, and the message links to the release's page |
| Format.ReleaseContent | scripts/monitor.py:263-269 | the content is the three header lines alone exactly when the body is empty |
| Format.ReleaseContentRoundTrip | scripts/monitor.py:263-269 | name, tag, publication time and the whole body, multi-line or empty, are read back exactly from the content |
| Notify.TelegramText | scripts/monitor.py:141-143 | the text starts with the bold title, a blank line and the content; it is longer than that exactly when a non-empty url is given, and then the rest is the `<a href='{url}'>` link from which the url is read back |
| Notify.TelegramLink | scripts/monitor.py:143 | the link suffix carries the url, which is read back from between its fixed head and tail |
| Notify.HtmlContent | scripts/monitor.py:174-176 | the content's lines joined by `<br>`, newline-free, followed by the link only when a non-empty url is given (the same construction as lines 212-214) |
| Notify.RecipientOfRequest | scripts/monitor.py:136 | every request built by a backend is addressed to that backend: bot token in the Telegram endpoint, app token and single uid for WxPusher, token for PushPlus |
| Notify.Send | scripts/monitor.py:138-159 | `send` posts the request of its backend and returns true exactly when the reply is accepted (Telegram: status outside 400-599; WxPusher and PushPlus at lines 170-198 and 208-235: also code 1000 or 200); a failure is `false` |
| Notify.BroadcastRecipients | scripts/monitor.py:324-325 | a broadcast's i-th request goes to the i-th notifier |
| Notify.Dispatch | scripts/monitor.py:324-325 | every notifier's `send` is called exactly once, in list order, with the same message, whatever the earlier calls returned |
| Notify.Enabled | scripts/monitor.py:297-309 | Telegram is enabled iff token and chat id are non-empty, WxPusher iff app token and uid are, PushPlus iff its token is; each with its credentials; order Telegram, WxPusher, PushPlus |
| Notify.SelectNotifiers | scripts/monitor.py:297-309 | the list built by the three conditional appends is the enabled list |
| State.Record.Set | scripts/monitor.py:48 | assigning one key changes that key and no other |
| State.Initial | scripts/monitor.py:22-35 | a missing or unreadable state file gives all four keys `None`; otherwise the parsed record |
| State.Updated | scripts/monitor.py:46-49 | after `update(key, value)` the key holds the value, `last_check` holds the current time, every other key is unchanged |
| State.StateManager.constructor | scripts/monitor.py:18-20 | the manager starts from the loaded record |
| State.StateManager.Update | scripts/monitor.py:46-49 | the state becomes the updated record, in place |
| Monitor.KeyOf | scripts/monitor.py:328 | an identity is never stored under `last_check` (commit, tag and release keys at lines 328, 344, 360) |
| Monitor.StepByVerdict | scripts/monitor.py:319-330 | no data and unchanged: nothing sent, state untouched; first observation: nothing sent, identity recorded; changed: the formatted message broadcast, identity recorded |
| Monitor.NotifiesIffChanged | scripts/monitor.py:320-325 | something is sent iff the stored identity is present and differs from the fresh one, and a backend is configured |
| Monitor.ChangeReachesEveryNotifier | scripts/monitor.py:323-325 | on a change each notifier receives the formatted (title, content, url) once, in list order |
| Monitor.StepRecordsIdentity | scripts/monitor.py:319-328 | after a check with fresh data the stored identity is the fresh one, whatever was sent; only that key and `last_check` may move |
| Monitor.StepIdempotent | scripts/monitor.py:329-330 | checking again with the same data sends nothing and leaves the state, `last_check` included, unchanged |
| Monitor.CheckKind | scripts/monitor.py:316-330 | the check block on the state manager sends and records exactly what `Step` says (same pattern at lines 332-346 and 348-362) |
| Monitor.KindsAreIndependent | scripts/monitor.py:316-362 | each kind is judged against the loaded record; notifications go out commit first, then tag, then release |
| Monitor.FirstRunIsSilent | scripts/monitor.py:316-362 | from the default record nothing is sent, each fetched identity is recorded, each unfetched kind stays `None` |
| Monitor.SecondRunIsQuiet | scripts/monitor.py:316-362 | a second run on the same fetched data sends nothing and saves the same state |
| Monitor.RunOnce | scripts/monitor.py:273-365 | with `MONITORED_REPO` unset nothing happens; otherwise the saved state and the sends are those of the three checks on the loaded state with the enabled notifiers |

## Left out

- HTTP: the GitHub fetches are optional API records given as inputs (`None` for an empty
  list, a 404 or any exception), and each POST is a `network` function from request to
  reply; the `Authorization` header from `GITHUB_TOKEN` is not modelled. No `requests`
  call in the script passes a timeout (`scripts/monitor.py:68`, `88`, `106`, `145`, `178`,
  `216`), so a server that never answers blocks the whole run; the model, where every
  call returns, cannot express that.
- Reading and writing `.monitor_state.json`: only the outcome of the read (missing,
  unreadable, or a parsed record holding all four keys) is an input, and `RunOnce`
  returns the record `save_state` would write. A file that parses but lacks a key (a
  `KeyError` in `main`) is not modelled, and neither are extra keys in a parsed file,
  which `save_state` would write back but `Record` drops.
- `os.getenv`: the environment is an `Env` value. `print` output is not modelled.
- `datetime.now()`: a `now` parameter; the three calls made by the three updates of
  one run are taken to return the same instant.
- `RunOnce`: the results of `send` are computed by `Dispatch` and discarded, as in `main`.
- scripts/test_notifications.py (live test messages) and scripts/check_state.py (a
  diagnostic printer using floating-point durations) are not part of this model.
