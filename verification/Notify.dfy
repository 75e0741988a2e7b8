/**
 * The notification backends (`TelegramNotifier`, `WxPusherNotifier`, `PushPlusNotifier`),
 * the request each `send` builds, the loop in `main` that calls every backend, and the rule
 * that picks the backends from the configuration. The HTTP POST is a `network` parameter:
 * it maps the request sent to the reply received.
 */
module Notify {

  import opened Wrappers
  import opened Text
  import opened Format

  /** A configured backend and its credentials. */
  datatype Notifier =
    | Telegram(botToken: string, chatId: string)
    | WxPusher(appToken: string, uid: string)
    | PushPlus(token: string)

  /** The HTTP POST a backend's `send` makes: its endpoint and its JSON fields. */
  datatype Request =
    | TelegramPost(endpoint: string, chatId: string, text: string, parseMode: string, disableWebPagePreview: bool)
    | WxPusherPost(endpoint: string, appToken: string, content: string, summary: string, contentType: int, uids: seq<string>)
    | PushPlusPost(endpoint: string, token: string, title: string, content: string, template: string)

  /** What came back: nothing (the request raised, e.g. a connection error), or a status and the JSON `code` field when there is one. */
  datatype Response = NoReply | Reply(status: int, code: Option<int>)

  const TelegramApi := "https://api.telegram.org/bot"
  const TelegramMethod := "/sendMessage"
  const WxPusherEndpoint := "http://wxpusher.zjiecode.com/api/send/message"
  const PushPlusEndpoint := "http://www.pushplus.plus/send"

  /** The "view details" link each backend appends; the Telegram one is ordinary text with HTML parse mode. */
  function TelegramLink(url: string): (link: string)
    ensures Unwrap(link, "\n\n🔗 <a href='", "'>查看详情</a>") == Some(url)
  {
    UnwrapWrapped("\n\n🔗 <a href='", url, "'>查看详情</a>");
    "\n\n🔗 <a href='" + url + "'>查看详情</a>"
  }

  function HtmlLink(url: string): string
  {
    "<br><br><a href=\"" + url + "\">🔗 查看详情</a>"
  }

  /** The Telegram message text: bold title, blank line, content, and the link only when a url is given. */
  function TelegramText(title: string, content: string, url: Option<string>): (text: string)
    ensures "<b>" + title + "</b>\n\n" + content <= text
    ensures Truthy(url) <==> |text| > |"<b>" + title + "</b>\n\n" + content|
    ensures Truthy(url) ==> Unwrap(text[|"<b>" + title + "</b>\n\n" + content|..], "\n\n🔗 <a href='", "'>查看详情</a>") == Some(url.value)
  {
    "<b>" + title + "</b>\n\n" + content + if Truthy(url) then TelegramLink(url.value) else ""
  }

  /**
   * The HTML content shared by WxPusher and PushPlus: the content's lines joined by `<br>`
   * (no newline is left), then the link only when a url is given.
   */
  function HtmlContent(content: string, url: Option<string>): (html: string)
    ensures html == Join(Split(content, '\n'), "<br>") + if Truthy(url) then HtmlLink(url.value) else ""
    ensures '\n' !in html[..|html| - if Truthy(url) then |HtmlLink(url.value)| else 0]
  {
    ReplaceIsSplitJoin(content, '\n', "<br>");
    Replace(content, '\n', "<br>") + if Truthy(url) then HtmlLink(url.value) else ""
  }

  /** The request `send` posts for one notifier. */
  function BuildRequest(n: Notifier, title: string, content: string, url: Option<string>): Request
  {
    match n
    case Telegram(token, chat) => TelegramPost(TelegramApi + token + TelegramMethod, chat, TelegramText(title, content, url), "HTML", false)
    case WxPusher(app, uid) => WxPusherPost(WxPusherEndpoint, app, HtmlContent(content, url), title, 2, [uid])
    case PushPlus(token) => PushPlusPost(PushPlusEndpoint, token, title, HtmlContent(content, url), "html")
  }

  /** The notifier a request is addressed to, read off its endpoint and credentials. */
  function Recipient(req: Request): Option<Notifier>
  {
    match req
    case TelegramPost(endpoint, chat, _, _, _) =>
      (match DropPrefix(endpoint, TelegramApi)
       case Some(rest) =>
         if |TelegramMethod| <= |rest| && rest[|rest| - |TelegramMethod|..] == TelegramMethod
         then Some(Telegram(rest[..|rest| - |TelegramMethod|], chat))
         else None
       case None => None)
    case WxPusherPost(endpoint, app, _, _, _, uids) =>
      if endpoint == WxPusherEndpoint && |uids| == 1 then Some(WxPusher(app, uids[0])) else None
    case PushPlusPost(endpoint, token, _, _, _) =>
      if endpoint == PushPlusEndpoint then Some(PushPlus(token)) else None
  }

  /** Every request reaches the notifier that built it. */
  lemma RecipientOfRequest(n: Notifier, title: string, content: string, url: Option<string>)
    ensures Recipient(BuildRequest(n, title, content, url)) == Some(n)
  {
    match n
    case Telegram(token, chat) =>
      var endpoint := TelegramApi + token + TelegramMethod;
      var rest := token + TelegramMethod;
      assert endpoint == TelegramApi + rest;
      assert DropPrefix(endpoint, TelegramApi) == Some(rest);
      assert rest[..|rest| - |TelegramMethod|] == token;
    case WxPusher(_, _) =>
    case PushPlus(_) =>
  }

  /** `raise_for_status` passes for every status outside 400-599. */
  predicate StatusOk(status: int)
  {
    !(400 <= status < 600)
  }

  /** What `send` returns: Telegram needs an accepted status; the two WeChat services also a success code in the reply. */
  predicate Accepted(n: Notifier, resp: Response)
  {
    match n
    case Telegram(_, _) => resp.Reply? && StatusOk(resp.status)
    case WxPusher(_, _) => resp.Reply? && StatusOk(resp.status) && resp.code == Some(1000)
    case PushPlus(_) => resp.Reply? && StatusOk(resp.status) && resp.code == Some(200)
  }

  /** `send` on one backend: post the request and report success; a failure is a `false`, never an exception. */
  method Send(n: Notifier, title: string, content: string, url: Option<string>, network: Request -> Response)
    returns (ok: bool, req: Request)
    ensures Recipient(req) == Some(n)
    ensures req == BuildRequest(n, title, content, url)
    ensures ok <==> Accepted(n, network(req))
  {
    req := BuildRequest(n, title, content, url);
    RecipientOfRequest(n, title, content, url);
    ok := Accepted(n, network(req));
  }

  /** The requests sent when every notifier in the list is given the message, in list order. */
  function Broadcast(notifiers: seq<Notifier>, msg: Message): (reqs: seq<Request>)
    ensures |reqs| == |notifiers|
  {
    seq(|notifiers|, i requires 0 <= i < |notifiers| => BuildRequest(notifiers[i], msg.title, msg.content, Some(msg.url)))
  }

  /** A broadcast reaches each notifier once, in list order. */
  lemma BroadcastRecipients(notifiers: seq<Notifier>, msg: Message)
    ensures forall i :: 0 <= i < |notifiers| ==> Recipient(Broadcast(notifiers, msg)[i]) == Some(notifiers[i])
  {
    forall i | 0 <= i < |notifiers|
      ensures Recipient(Broadcast(notifiers, msg)[i]) == Some(notifiers[i])
    {
      RecipientOfRequest(notifiers[i], msg.title, msg.content, Some(msg.url));
    }
  }

  /**
   * The `for notifier in notifiers: notifier.send(title, content, url)` loop: every
   * notifier is called exactly once, in order, whatever the earlier calls returned.
   */
  method Dispatch(notifiers: seq<Notifier>, msg: Message, network: Request -> Response)
    returns (sent: seq<Request>, delivered: seq<bool>)
    ensures sent == Broadcast(notifiers, msg)
    ensures |delivered| == |notifiers|
    ensures forall i :: 0 <= i < |notifiers| ==> (delivered[i] <==> Accepted(notifiers[i], network(sent[i])))
  {
    sent, delivered := [], [];
    for i := 0 to |notifiers|
      invariant |sent| == i && |delivered| == i
      invariant forall k :: 0 <= k < i ==> sent[k] == BuildRequest(notifiers[k], msg.title, msg.content, Some(msg.url))
      invariant forall k :: 0 <= k < i ==> (delivered[k] <==> Accepted(notifiers[k], network(sent[k])))
    {
      var ok, req := Send(notifiers[i], msg.title, msg.content, Some(msg.url), network);
      sent, delivered := sent + [req], delivered + [ok];
    }
  }

  /** The environment variables the monitor reads; `None` when unset. */
  datatype Env = Env(
    repo: Option<string>,
    githubToken: Option<string>,
    telegramToken: Option<string>,
    telegramChatId: Option<string>,
    wxpusherToken: Option<string>,
    wxpusherUid: Option<string>,
    pushplusToken: Option<string>)

  /** Position of a backend kind in the notifier list. */
  function Rank(n: Notifier): nat
  {
    match n
    case Telegram(_, _) => 0
    case WxPusher(_, _) => 1
    case PushPlus(_) => 2
  }

  /**
   * The enabled backends: each one whose credentials are all set and non-empty,
   * with exactly those credentials, in the order Telegram, WxPusher, PushPlus.
   */
  function Enabled(env: Env): (ns: seq<Notifier>)
    ensures (exists i :: 0 <= i < |ns| && ns[i].Telegram?) <==> Truthy(env.telegramToken) && Truthy(env.telegramChatId)
    ensures (exists i :: 0 <= i < |ns| && ns[i].WxPusher?) <==> Truthy(env.wxpusherToken) && Truthy(env.wxpusherUid)
    ensures (exists i :: 0 <= i < |ns| && ns[i].PushPlus?) <==> Truthy(env.pushplusToken)
    ensures forall i :: 0 <= i < |ns| && ns[i].Telegram? ==> ns[i] == Telegram(env.telegramToken.value, env.telegramChatId.value)
    ensures forall i :: 0 <= i < |ns| && ns[i].WxPusher? ==> ns[i] == WxPusher(env.wxpusherToken.value, env.wxpusherUid.value)
    ensures forall i :: 0 <= i < |ns| && ns[i].PushPlus? ==> ns[i] == PushPlus(env.pushplusToken.value)
    ensures forall i, j :: 0 <= i < j < |ns| ==> Rank(ns[i]) < Rank(ns[j])
  {
    var t := if Truthy(env.telegramToken) && Truthy(env.telegramChatId)
      then [Telegram(env.telegramToken.value, env.telegramChatId.value)] else [];
    var w := if Truthy(env.wxpusherToken) && Truthy(env.wxpusherUid)
      then [WxPusher(env.wxpusherToken.value, env.wxpusherUid.value)] else [];
    var p := if Truthy(env.pushplusToken) then [PushPlus(env.pushplusToken.value)] else [];
    var ns := t + w + p;
    assert t != [] ==> ns[0] == t[0];
    assert w != [] ==> ns[|t|] == w[0];
    assert p != [] ==> ns[|t| + |w|] == p[0];
    ns
  }

  /** The list `main` builds with `append`, one backend at a time. */
  method SelectNotifiers(env: Env) returns (notifiers: seq<Notifier>)
    ensures notifiers == Enabled(env)
  {
    notifiers := [];
    if Truthy(env.telegramToken) && Truthy(env.telegramChatId) {
      notifiers := notifiers + [Telegram(env.telegramToken.value, env.telegramChatId.value)];
    }
    if Truthy(env.wxpusherToken) && Truthy(env.wxpusherUid) {
      notifiers := notifiers + [WxPusher(env.wxpusherToken.value, env.wxpusherUid.value)];
    }
    if Truthy(env.pushplusToken) {
      notifiers := notifiers + [PushPlus(env.pushplusToken.value)];
    }
  }
}
