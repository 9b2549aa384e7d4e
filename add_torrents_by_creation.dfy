/**
 * The "create torrent" tab of the add-torrents modal: the `isCreatingTorrents`
 * flag, the click handler of its submit button, the create-torrent request it
 * derives from the partial form data, and the preferences it saves.
 *
 * The collaborators the handler calls (the create-torrent action, the modal's
 * dismissal and the preference store) are recorded as effects in a log, in the
 * order in which they are called.
 */
module AddTorrentsByCreation {
  import opened Wrappers
  import opened Text

  /**
   * The form's data: a field the user did not fill is absent (None). The
   * trackers are the list already gathered from the repeated tracker fields.
   */
  datatype FormData = FormData(
    name: Option<string>,
    sourcePath: Option<string>,
    trackers: seq<string>,
    comment: Option<string>,
    infoSource: Option<string>,
    isPrivate: Option<bool>,
    start: Option<bool>,
    tags: Option<string>)

  /** The request handed to the create-torrent action. */
  datatype CreateTorrentRequest = CreateTorrentRequest(
    name: Option<string>,
    sourcePath: string,
    trackers: seq<string>,
    comment: Option<string>,
    infoSource: Option<string>,
    isPrivate: bool,
    start: bool,
    tags: Option<seq<string>>)

  /** The user preferences saved after a submission. */
  datatype Preferences = Preferences(start: Option<bool>, destination: string, tab: string)

  /** A call to one of the handler's collaborators. */
  datatype Effect =
    | CreateTorrent(request: CreateTorrentRequest)
    | SavePreferences(prefs: Preferences)
    | DismissModal

  const TagSeparator: char := ','
  const ByCreationTab: string := "by-creation"

  /** `b || false` on an optional boolean: true only for a present `true`. */
  function OrFalse(b: Option<bool>): (r: bool)
    ensures r <==> b == Some(true)
  {
    match b
    case Some(v) => v
    case None => false
  }

  /**
   * `tags != null ? tags.split(',') : undefined`: absent tags stay absent;
   * present tags become comma-free pieces that join back to the tags string.
   */
  function SplitTags(tags: Option<string>): (r: Option<seq<string>>)
    ensures r.None? <==> tags.None?
    ensures r.Some? ==> |r.value| >= 1 && SeparatorFree(r.value, TagSeparator)
    ensures r.Some? ==> Join(r.value, TagSeparator) == tags.value
  {
    match tags
    case None => None
    case Some(t) =>
      JoinSplit(t, TagSeparator);
      Some(Split(t, TagSeparator))
  }

  /**
   * The request built once the source path is known: text fields and trackers
   * are passed through, the two flags default to false, the tags are split.
   */
  function BuildRequest(data: FormData): (r: CreateTorrentRequest)
    requires data.sourcePath.Some?
    ensures Some(r.sourcePath) == data.sourcePath
    ensures r.name == data.name && r.comment == data.comment && r.infoSource == data.infoSource
    ensures r.trackers == data.trackers
    ensures r.isPrivate <==> data.isPrivate == Some(true)
    ensures r.start <==> data.start == Some(true)
    ensures r.tags.None? <==> data.tags.None?
    ensures r.tags.Some? ==> |r.tags.value| >= 1 && SeparatorFree(r.tags.value, TagSeparator)
    ensures r.tags.Some? ==> Join(r.tags.value, TagSeparator) == data.tags.value
  {
    CreateTorrentRequest(
      data.name,
      data.sourcePath.value,
      data.trackers,
      data.comment,
      data.infoSource,
      OrFalse(data.isPrivate),
      OrFalse(data.start),
      SplitTags(data.tags))
  }

  /**
   * The preferences saved for a submission: the raw start flag (not
   * defaulted), the source path as destination, and this tab.
   */
  predicate SavedFor(r: CreateTorrentRequest, p: Preferences) {
    && p.destination == r.sourcePath
    && p.tab == ByCreationTab
    && (p.start == Some(true) <==> r.start)
  }

  /**
   * The collaborator calls of one click, given the form's data (None when the
   * form is not mounted): nothing without a form or without a source path;
   * otherwise the create-torrent request, then the preference save, which
   * does not wait for the request.
   */
  function ClickEffects(form: Option<FormData>): (e: seq<Effect>)
    ensures e == [] <==> form.None? || form.value.sourcePath.None?
    ensures DismissModal !in e
    ensures e != [] ==>
      && |e| == 2
      && e[0] == CreateTorrent(BuildRequest(form.value))
      && e[1].SavePreferences?
      && e[1].prefs.start == form.value.start
      && SavedFor(e[0].request, e[1].prefs)
  {
    if form.None? || form.value.sourcePath.None? then []
    else
      var data := form.value;
      [CreateTorrent(BuildRequest(data)),
       SavePreferences(Preferences(data.start, data.sourcePath.value, ByCreationTab))]
  }

  predicate IsCreate(x: Effect) { x.CreateTorrent? }
  predicate IsDismiss(x: Effect) { x.DismissModal? }

  /** How many effects of the log satisfy `kind`. */
  function Count(log: seq<Effect>, kind: Effect -> bool): (n: nat)
    ensures n <= |log|
  {
    if log == [] then 0 else (if kind(log[0]) then 1 else 0) + Count(log[1..], kind)
  }

  /** Counting distributes over appending logs. */
  lemma {:induction false} CountAppend(a: seq<Effect>, b: seq<Effect>, kind: Effect -> bool)
    ensures Count(a + b, kind) == Count(a, kind) + Count(b, kind)
  {
    if a != [] {
      assert (a + b)[0] == a[0];
      assert (a + b)[1..] == a[1..] + b;
      CountAppend(a[1..], b, kind);
    } else {
      assert a + b == b;
    }
  }

  /** Every create-torrent call in the log is followed at once by its preference save. */
  predicate SavesFollowCreates(log: seq<Effect>) {
    forall i :: 0 <= i < |log| && log[i].CreateTorrent? ==>
      i + 1 < |log| && log[i + 1].SavePreferences? && SavedFor(log[i].request, log[i + 1].prefs)
  }

  /** Appending a click's effects keeps every create-torrent call followed by its save. */
  lemma SavesFollowCreatesAppend(log: seq<Effect>, form: Option<FormData>)
    requires SavesFollowCreates(log)
    ensures SavesFollowCreates(log + ClickEffects(form))
  {
  }

  /**
   * The component's state: the `isCreatingTorrents` flag, the log of
   * collaborator calls so far and the number of create-torrent requests whose
   * outcome has not yet arrived.
   */
  class AddTorrentsByCreationForm {
    var isCreatingTorrents: bool
    var effects: seq<Effect>
    var pending: nat

    /**
     * The modal is dismissed only by a request's continuation, so dismissals
     * and open requests together never outnumber the requests dispatched, and
     * every dispatch is followed at once by its preference save.
     */
    ghost predicate Valid()
      reads this
    {
      && Count(effects, IsDismiss) + pending <= Count(effects, IsCreate)
      && SavesFollowCreates(effects)
    }

    /** The flag starts false and nothing has been called yet. */
    constructor ()
      ensures Valid()
      ensures !isCreatingTorrents && effects == [] && pending == 0
    {
      isCreatingTorrents := false;
      effects := [];
      pending := 0;
    }

    /**
     * The submit button's click handler. `form` is the form's data, or None
     * when the form is not mounted. Without a form nothing changes; otherwise
     * the flag is set, and it stays set even when the missing source path
     * stops the submission.
     */
    method OnAddTorrentsClick(form: Option<FormData>)
      requires Valid()
      modifies this
      ensures Valid()
      ensures form.None? ==> isCreatingTorrents == old(isCreatingTorrents)
      ensures form.Some? ==> isCreatingTorrents
      ensures effects == old(effects) + ClickEffects(form)
      ensures pending == old(pending) + (if ClickEffects(form) == [] then 0 else 1)
    {
      if form.None? {
        return;
      }
      var data := form.value;
      isCreatingTorrents := true;
      if data.sourcePath.None? {
        return;
      }
      var request := BuildRequest(data);
      ghost var clicked := ClickEffects(form);
      assert Count(clicked, IsCreate) == 1 && Count(clicked, IsDismiss) == 0 by {
        assert clicked[1..][1..] == [];
      }
      SavesFollowCreatesAppend(effects, form);
      CountAppend(effects, clicked, IsCreate);
      CountAppend(effects, clicked, IsDismiss);
      effects := effects + [CreateTorrent(request)];
      pending := pending + 1;
      effects := effects + [SavePreferences(Preferences(data.start, data.sourcePath.value, ByCreationTab))];
      assert effects == old(effects) + clicked;
    }

    /**
     * The outcome of one dispatched request arrives. Only a successful one
     * runs the continuation, which dismisses the modal; the flag is left as
     * it is either way.
     */
    method Settle(succeeded: bool)
      requires Valid()
      requires pending > 0
      modifies this
      ensures Valid()
      ensures isCreatingTorrents == old(isCreatingTorrents)
      ensures effects == old(effects) + (if succeeded then [DismissModal] else [])
      ensures pending == old(pending) - 1
    {
      pending := pending - 1;
      if succeeded {
        CountAppend(effects, [DismissModal], IsDismiss);
        CountAppend(effects, [DismissModal], IsCreate);
        assert Count([DismissModal], IsDismiss) == 1;
        effects := effects + [DismissModal];
      }
    }
  }

  /**
   * A submission with a source path, one tracker, two comma-separated tags
   * and every other field untouched gives the tags as a list and both flags false.
   */
  lemma ExampleSubmission()
    ensures
      var data := FormData(None, Some("/downloads/foo"), ["udp://tracker:80"], None, None, None, None, Some("movies,2024"));
      var r := BuildRequest(data);
      && r.tags == Some(["movies", "2024"])
      && r.trackers == ["udp://tracker:80"]
      && !r.isPrivate && !r.start
  {
    var pieces := ["movies", "2024"];
    assert Join(pieces, TagSeparator) == "movies,2024";
    SplitJoin(pieces, TagSeparator);
  }
}
