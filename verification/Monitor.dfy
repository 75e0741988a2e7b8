/**
 * The change detection in `main`: for commits, then tags, then releases, compare the
 * fresh identity with the stored one, notify every backend when a previously seen
 * identity changed, and record the fresh identity.
 */
module Monitor {

  import opened Wrappers
  import opened GitHub
  import opened Format
  import opened Notify
  import opened State

  /** The state key a marker's identity is stored under. */
  function KeyOf(m: Marker): (k: Key)
    ensures k != LastCheck
  {
    match m
    case OfCommit(_) => LastCommit
    case OfTag(_) => LastTag
    case OfRelease(_) => LastRelease
  }

  /** What is compared: the short commit id, the tag name, the release's tag name. */
  function Identity(m: Marker): string
  {
    match m
    case OfCommit(c) => c.sha
    case OfTag(t) => t.name
    case OfRelease(r) => r.tag
  }

  /** The state after a check and the requests it sent, in order. */
  datatype Outcome = Outcome(state: Record, sent: seq<Request>)

  /**
   * One check block of `main`. With no fresh marker nothing happens. When the stored
   * identity differs from the fresh one, the backends are notified if it was not `None`,
   * and the fresh identity is recorded. When they are equal nothing happens, not even
   * a new `last_check`.
   */
  function Step(rec: Record, latest: Option<Marker>, repo: string, notifiers: seq<Notifier>, now: string): Outcome
  {
    match latest
    case None => Outcome(rec, [])
    case Some(m) =>
      var key, id := KeyOf(m), Identity(m);
      if rec.Get(key) != Some(id) then
        var sent := if rec.Get(key).Some? then Broadcast(notifiers, FormatMarker(m, repo)) else [];
        Outcome(Updated(rec, key, id, now), sent)
      else Outcome(rec, [])
  }

  /** The four ways a check can go. */
  datatype Verdict = NoData | FirstObservation | Unchanged | Changed

  /** The classification the check blocks implement, stated on its own. */
  function Classify(stored: Option<string>, latest: Option<string>): Verdict
  {
    if latest.None? then NoData
    else if stored.None? then FirstObservation
    else if stored == latest then Unchanged
    else Changed
  }

  /** The verdict of the stored identity against a fresh marker. */
  function VerdictOf(rec: Record, latest: Option<Marker>): Verdict
  {
    match latest
    case None => NoData
    case Some(m) => Classify(rec.Get(KeyOf(m)), Some(Identity(m)))
  }

  /** What a check does, verdict by verdict. */
  lemma StepByVerdict(rec: Record, latest: Option<Marker>, repo: string, notifiers: seq<Notifier>, now: string)
    ensures var o := Step(rec, latest, repo, notifiers, now);
      match VerdictOf(rec, latest)
      case NoData => o == Outcome(rec, [])
      case Unchanged => o == Outcome(rec, [])
      case FirstObservation =>
        o.sent == [] && o.state == Updated(rec, KeyOf(latest.value), Identity(latest.value), now)
      case Changed =>
        o.sent == Broadcast(notifiers, FormatMarker(latest.value, repo))
        && o.state == Updated(rec, KeyOf(latest.value), Identity(latest.value), now)
  {
  }

  /** A notification goes out if and only if the kind was seen before and its identity changed (and a backend is configured). */
  lemma NotifiesIffChanged(rec: Record, latest: Option<Marker>, repo: string, notifiers: seq<Notifier>, now: string)
    ensures Step(rec, latest, repo, notifiers, now).sent != [] <==> VerdictOf(rec, latest) == Changed && notifiers != []
  {
  }

  /** On a change every backend gets the formatted message exactly once, in list order. */
  lemma ChangeReachesEveryNotifier(rec: Record, latest: Option<Marker>, repo: string, notifiers: seq<Notifier>, now: string)
    requires VerdictOf(rec, latest) == Changed
    ensures var sent := Step(rec, latest, repo, notifiers, now).sent;
      |sent| == |notifiers|
      && forall i :: 0 <= i < |notifiers| ==>
           Recipient(sent[i]) == Some(notifiers[i])
           && sent[i] == BuildRequest(notifiers[i], FormatMarker(latest.value, repo).title, FormatMarker(latest.value, repo).content, Some(FormatMarker(latest.value, repo).url))
  {
    BroadcastRecipients(notifiers, FormatMarker(latest.value, repo));
  }

  /**
   * After a check with a fresh marker the stored identity is the fresh one, whatever
   * the verdict; only that key and `last_check` may have moved.
   */
  lemma StepRecordsIdentity(rec: Record, m: Marker, repo: string, notifiers: seq<Notifier>, now: string)
    ensures var r := Step(rec, Some(m), repo, notifiers, now).state;
      r.Get(KeyOf(m)) == Some(Identity(m))
      && forall k :: k != KeyOf(m) && k != LastCheck ==> r.Get(k) == rec.Get(k)
  {
  }

  /** Checking twice with the same fresh data: the second check sends nothing and changes nothing. */
  lemma StepIdempotent(rec: Record, latest: Option<Marker>, repo: string, notifiers: seq<Notifier>, now: string, later: string)
    ensures var o := Step(rec, latest, repo, notifiers, now);
      Step(o.state, latest, repo, notifiers, later) == Outcome(o.state, [])
  {
  }

  /**
   * One check block of `main` on the state manager: the same branches, with the
   * notifier loop of `Dispatch`. The send results are discarded, as in `main`.
   */
  method CheckKind(sm: StateManager, latest: Option<Marker>, repo: string, notifiers: seq<Notifier>,
                   network: Request -> Response, now: string)
    returns (sent: seq<Request>)
    modifies sm
    ensures sm.state == Step(old(sm.state), latest, repo, notifiers, now).state
    ensures sent == Step(old(sm.state), latest, repo, notifiers, now).sent
  {
    sent := [];
    if latest.Some? {
      var m := latest.value;
      var key, id := KeyOf(m), Identity(m);
      if sm.state.Get(key) != Some(id) {
        if sm.state.Get(key).Some? {
          var delivered;
          sent, delivered := Dispatch(notifiers, FormatMarker(m, repo), network);
        }
        sm.Update(key, id, now);
      }
    }
  }

  /** The fresh markers from the three fetches, `None` where a fetch returned nothing. */
  function CommitMarker(api: Option<ApiCommit>): Option<Marker>
  {
    if api.Some? then Some(OfCommit(CommitOf(api.value))) else None
  }

  function TagMarker(api: Option<ApiTag>, repo: string): Option<Marker>
  {
    if api.Some? then Some(OfTag(TagOf(api.value, repo))) else None
  }

  function ReleaseMarker(api: Option<ApiRelease>): Option<Marker>
  {
    if api.Some? then Some(OfRelease(ReleaseOf(api.value))) else None
  }

  /** The three check blocks of `main`, commit then tag then release. */
  function CheckAll(rec: Record, repo: string, notifiers: seq<Notifier>,
                    commit: Option<Marker>, tag: Option<Marker>, release: Option<Marker>, now: string): Outcome
  {
    var c := Step(rec, commit, repo, notifiers, now);
    var t := Step(c.state, tag, repo, notifiers, now);
    var r := Step(t.state, release, repo, notifiers, now);
    Outcome(r.state, c.sent + t.sent + r.sent)
  }

  /** A well-kinded set of fetches: the commit slot holds a commit, and so on. */
  predicate WellKinded(commit: Option<Marker>, tag: Option<Marker>, release: Option<Marker>)
  {
    (commit.Some? ==> commit.value.OfCommit?)
    && (tag.Some? ==> tag.value.OfTag?)
    && (release.Some? ==> release.value.OfRelease?)
  }

  /** The identity recorded for a fetch, if any. */
  function IdentityOf(latest: Option<Marker>): Option<string>
  {
    if latest.Some? then Some(Identity(latest.value)) else None
  }

  /**
   * The first run, from the default record: nothing is sent, each fetched identity is
   * recorded, each kind not fetched stays `None`, and `last_check` is set exactly when
   * something was fetched.
   */
  lemma FirstRunIsSilent(repo: string, notifiers: seq<Notifier>,
                         commit: Option<Marker>, tag: Option<Marker>, release: Option<Marker>, now: string)
    requires WellKinded(commit, tag, release)
    ensures var o := CheckAll(Default, repo, notifiers, commit, tag, release, now);
      o.sent == []
      && o.state.Get(LastCommit) == IdentityOf(commit)
      && o.state.Get(LastTag) == IdentityOf(tag)
      && o.state.Get(LastRelease) == IdentityOf(release)
      && o.state.Get(LastCheck) == if commit.Some? || tag.Some? || release.Some? then Some(now) else None
  {
  }

  /** A second run on the same fetched data sends nothing and leaves the saved state as it was. */
  lemma SecondRunIsQuiet(rec: Record, repo: string, notifiers: seq<Notifier>,
                         commit: Option<Marker>, tag: Option<Marker>, release: Option<Marker>, now: string, later: string)
    requires WellKinded(commit, tag, release)
    ensures var o := CheckAll(rec, repo, notifiers, commit, tag, release, now);
      CheckAll(o.state, repo, notifiers, commit, tag, release, later) == Outcome(o.state, [])
  {
  }

  /** The requests a kind sends when judged against `rec`. */
  function Notification(rec: Record, latest: Option<Marker>, repo: string, notifiers: seq<Notifier>): seq<Request>
  {
    if VerdictOf(rec, latest) == Changed then Broadcast(notifiers, FormatMarker(latest.value, repo)) else []
  }

  /**
   * The kinds do not interfere: each is judged against the record as loaded, and the
   * run sends the commit notifications, then the tag ones, then the release ones.
   */
  lemma KindsAreIndependent(rec: Record, repo: string, notifiers: seq<Notifier>,
                         commit: Option<Marker>, tag: Option<Marker>, release: Option<Marker>, now: string)
    requires WellKinded(commit, tag, release)
    ensures CheckAll(rec, repo, notifiers, commit, tag, release, now).sent
         == Notification(rec, commit, repo, notifiers) + Notification(rec, tag, repo, notifiers) + Notification(rec, release, repo, notifiers)
  {
  }

  /** `main`: with `MONITORED_REPO` unset it stops before anything else; otherwise what `save_state` writes and what was sent. */
  method RunOnce(env: Env, load: LoadResult, commit: Option<ApiCommit>, tag: Option<ApiTag>, release: Option<ApiRelease>,
                 network: Request -> Response, now: string)
    returns (saved: Option<Record>, sent: seq<Request>)
    ensures !Truthy(env.repo) ==> saved == None && sent == []
    ensures Truthy(env.repo) ==>
      var o := CheckAll(Initial(load), env.repo.value, Enabled(env),
                        CommitMarker(commit), TagMarker(tag, env.repo.value), ReleaseMarker(release), now);
      saved == Some(o.state) && sent == o.sent
  {
    if !Truthy(env.repo) {
      return None, [];
    }
    var repo := env.repo.value;
    var sm := new StateManager(load);
    var notifiers := SelectNotifiers(env);
    var commitSent := CheckKind(sm, CommitMarker(commit), repo, notifiers, network, now);
    var tagSent := CheckKind(sm, TagMarker(tag, repo), repo, notifiers, network, now);
    var releaseSent := CheckKind(sm, ReleaseMarker(release), repo, notifiers, network, now);
    saved := Some(sm.state);
    sent := commitSent + tagSent + releaseSent;
  }
}
