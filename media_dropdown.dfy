/**
 * The media attachment dropdown of the chat input: it stages at most one
 * image and one video, previews them, and sends either one through a fixed
 * sequence of awaited collaborator calls (upload URL, POST of the file,
 * parse of the storage id, message commit).
 */
module Media {
  import opened Wrappers
  import opened ChatStore

  datatype Kind = Image | Video

  function Other(kind: Kind): Kind {
    match kind
    case Image => Video
    case Video => Image
  }

  /** A browser File: its name, its declared MIME type (`file.type`) and its bytes. */
  datatype File = File(name: string, mimeType: string, bytes: seq<bv8>)

  /** A call a send handler makes to a collaborator, with its arguments. */
  datatype Call =
    | GenerateUploadUrl
    | Post(url: string, contentType: string, body: File)
    | ReadJson
    | SendImage(imgId: Option<Id>, sender: Id, conversation: Id)
    | SendVideo(videoId: Option<Id>, sender: Id, conversation: Id)

  /** What a handler does that can be observed, in the order it does it. */
  datatype Effect =
    | SetLoading(on: bool)
    | SetSelection(kind: Kind, file: Option<File>)
    | Invoke(call: Call)
    | Toast(message: string)

  /**
   * How each awaited step of one send settles. `json` carries the
   * `storageId` field of the parsed response body: None when the body is an
   * object without that field (it destructures to `undefined`); Err when
   * reading or destructuring the body throws.
   */
  datatype Outcomes = Outcomes(
    uploadUrl: Outcome<string>,
    post: Outcome<()>,
    json: Outcome<Option<Id>>,
    commit: Outcome<()>)

  /** The component's three state cells. */
  datatype View = View(image: Option<File>, video: Option<File>, loading: bool)

  const Initial: View := View(None, None, false)

  function Selected(v: View, kind: Kind): Option<File> {
    match kind
    case Image => v.image
    case Video => v.video
  }

  /**
   * A kind's Send button is on screen (its dialog renders only while a file
   * of that kind is selected) and enabled (it is disabled by the one shared
   * loading flag).
   */
  function SendAvailable(v: View, kind: Kind): bool {
    Selected(v, kind).Some? && !v.loading
  }

  /** A file input's change event: `files[0]`, undefined for an empty list. */
  function FirstFile(files: seq<File>): Option<File> {
    if |files| > 0 then Some(files[0]) else None
  }

  /** The state after one effect; calls and notifications leave it as it is. */
  function Apply(v: View, e: Effect): View {
    match e
    case SetLoading(on) => v.(loading := on)
    case SetSelection(kind, f) =>
      (match kind
       case Image => v.(image := f)
       case Video => v.(video := f))
    case Invoke(_) => v
    case Toast(_) => v
  }

  /** The state reached from `v` by performing the effects of `t` in order. */
  function Replay(v: View, t: seq<Effect>): View
    decreases |t|
  {
    if t == [] then v else Apply(Replay(v, t[..|t| - 1]), t[|t| - 1])
  }

  /** The error notifications in a trace, in order. */
  function Toasts(t: seq<Effect>): seq<string>
    decreases |t|
  {
    if t == [] then []
    else (if t[0].Toast? then [t[0].message] else []) + Toasts(t[1..])
  }

  /** Position of a call in the fixed send sequence. */
  function Stage(c: Call): nat {
    match c
    case GenerateUploadUrl => 0
    case Post(_, _, _) => 1
    case ReadJson => 2
    case SendImage(_, _, _) => 3
    case SendVideo(_, _, _) => 3
  }

  predicate IsCommit(c: Call) {
    c.SendImage? || c.SendVideo?
  }

  /** The message mutation for a kind: `sendImage({imgId, ...})` or `sendVideo({videoId, ...})`. */
  function CommitCall(kind: Kind, storageId: Option<Id>, sender: Id, conversation: Id): Call {
    match kind
    case Image => SendImage(storageId, sender, conversation)
    case Video => SendVideo(storageId, sender, conversation)
  }

  function FailureMessage(kind: Kind): string {
    match kind
    case Image => "Failed to send image"
    case Video => "Failed to send video"
  }

  /** The calls made inside a handler's `try` block, and whether it ran to its end. */
  datatype Attempt = Attempt(calls: seq<Effect>, completed: bool)

  /**
   * The `try` block of a send handler, given the selection it reads, the
   * current user and the selected conversation; every entry of `calls` is an
   * Invoke. Reading `selected!.type` on a null selection throws after the
   * upload URL is obtained and before the POST; `me!._id` or
   * `selectedConversation!._id` on a missing value throws while the commit's
   * argument object is built, before the commit call.
   */
  function TryBlock(kind: Kind, file: Option<File>, me: Option<User>,
                    conversation: Option<Conversation>, o: Outcomes): (a: Attempt)
    ensures 1 <= |a.calls| && a.calls[0] == Invoke(GenerateUploadUrl)
    ensures forall i :: 0 <= i < |a.calls| ==> a.calls[i].Invoke?
    ensures a.completed ==> |a.calls| == 4 && IsCommit(a.calls[3].call)
  {
    if o.uploadUrl.Err? || file.None? then
      Attempt([Invoke(GenerateUploadUrl)], false)
    else
      var post := Invoke(Post(o.uploadUrl.value, file.value.mimeType, file.value));
      if o.post.Err? then
        Attempt([Invoke(GenerateUploadUrl), post], false)
      else if o.json.Err? || me.None? || conversation.None? then
        Attempt([Invoke(GenerateUploadUrl), post, Invoke(ReadJson)], false)
      else
        var commit := Invoke(CommitCall(kind, o.json.value, me.value.id, conversation.value.id));
        Attempt([Invoke(GenerateUploadUrl), post, Invoke(ReadJson), commit], o.commit.Ok?)
  }

  /**
   * One whole send handler: set the loading flag, run the `try` block, then
   * either clear that kind's selection or show the failure toast (`catch`),
   * and clear the flag (`finally`).
   */
  function SendTrace(kind: Kind, file: Option<File>, me: Option<User>,
                     conversation: Option<Conversation>, o: Outcomes): (t: seq<Effect>)
    ensures 3 <= |t| && t[0] == SetLoading(true) && t[|t| - 1] == SetLoading(false)
    ensures forall i :: 0 < i < |t| - 1 ==> !t[i].SetLoading?
  {
    var a := TryBlock(kind, file, me, conversation, o);
    [SetLoading(true)] + a.calls
    + [Closing(kind, a.completed), SetLoading(false)]
  }

  /** What a handler does after its `try` block: clear the selection, or the `catch` toast. */
  function Closing(kind: Kind, completed: bool): Effect {
    if completed then SetSelection(kind, None) else Toast(FailureMessage(kind))
  }

  /** Reference condition for a send that completes: every step succeeds. */
  predicate Succeeds(file: Option<File>, me: Option<User>,
                     conversation: Option<Conversation>, o: Outcomes)
  {
    && o.uploadUrl.Ok? && file.Some? && o.post.Ok? && o.json.Ok?
    && me.Some? && conversation.Some? && o.commit.Ok?
  }

  // ---------------------------------------------------------------------
  // Properties of the effect traces

  lemma {:induction false} ReplayAppend(v: View, a: seq<Effect>, b: seq<Effect>)
    ensures Replay(v, a + b) == Replay(Replay(v, a), b)
    decreases |b|
  {
    if b == [] {
      assert a + b == a;
    } else {
      var last := |b| - 1;
      assert (a + b)[..|a + b| - 1] == a + b[..last];
      assert (a + b)[|a + b| - 1] == b[last];
      ReplayAppend(v, a, b[..last]);
    }
  }

  /** Calls and notifications do not change the component's state. */
  lemma {:induction false} ReplayInert(v: View, t: seq<Effect>)
    requires forall k :: 0 <= k < |t| ==> t[k].Invoke? || t[k].Toast?
    ensures Replay(v, t) == v
    decreases |t|
  {
    if t != [] {
      ReplayInert(v, t[..|t| - 1]);
    }
  }

  lemma {:induction false} ToastsAppend(a: seq<Effect>, b: seq<Effect>)
    ensures Toasts(a + b) == Toasts(a) + Toasts(b)
    decreases |a|
  {
    if a == [] {
      assert a + b == b;
    } else {
      assert (a + b)[0] == a[0];
      assert (a + b)[1..] == a[1..] + b;
      ToastsAppend(a[1..], b);
    }
  }

  /** A trace of calls only holds no notification. */
  lemma {:induction false} ToastsOfCalls(t: seq<Effect>)
    requires forall k :: 0 <= k < |t| ==> t[k].Invoke?
    ensures Toasts(t) == []
    decreases |t|
  {
    if t != [] {
      ToastsOfCalls(t[1..]);
    }
  }

  /**
   * The `try` block makes only collaborator calls, in the fixed order upload
   * URL, POST, parse, commit; each is made at most once, and the first one
   * is always made.
   */
  lemma CallsInFixedOrder(kind: Kind, file: Option<File>, me: Option<User>,
                          conversation: Option<Conversation>, o: Outcomes)
    ensures var c := TryBlock(kind, file, me, conversation, o).calls;
      && 1 <= |c| <= 4
      && forall i :: 0 <= i < |c| ==> c[i].Invoke? && Stage(c[i].call) == i
  {
  }

  /**
   * The commit is made exactly when the upload URL, the POST and the parse
   * all succeeded (and the selection, the user and the conversation were
   * present); when an earlier step fails no commit is made.
   */
  lemma CommitOnlyAfterTransfer(kind: Kind, file: Option<File>, me: Option<User>,
                                conversation: Option<Conversation>, o: Outcomes)
    ensures var c := TryBlock(kind, file, me, conversation, o).calls;
      (exists i :: 0 <= i < |c| && c[i].Invoke? && IsCommit(c[i].call))
      <==> o.uploadUrl.Ok? && file.Some? && o.post.Ok? && o.json.Ok? && me.Some? && conversation.Some?
  {
    var c := TryBlock(kind, file, me, conversation, o).calls;
    if o.uploadUrl.Ok? && file.Some? && o.post.Ok? && o.json.Ok? && me.Some? && conversation.Some? {
      assert IsCommit(c[3].call);
    }
  }

  /**
   * The commit is the mutation of the handler's own kind, with the parsed
   * storage id, the current user's id and the selected conversation's id.
   */
  lemma CommitArguments(kind: Kind, file: Option<File>, me: Option<User>,
                        conversation: Option<Conversation>, o: Outcomes)
    ensures var c := TryBlock(kind, file, me, conversation, o).calls;
      forall i :: 0 <= i < |c| && c[i].Invoke? && IsCommit(c[i].call) ==>
        && o.json.Ok? && me.Some? && conversation.Some?
        && c[i].call == CommitCall(kind, o.json.value, me.value.id, conversation.value.id)
  {
  }

  /** The POST goes to the negotiated URL, with the file's type as Content-Type and the file as body. */
  lemma PostArguments(kind: Kind, file: Option<File>, me: Option<User>,
                      conversation: Option<Conversation>, o: Outcomes)
    ensures var c := TryBlock(kind, file, me, conversation, o).calls;
      forall i :: 0 <= i < |c| && c[i].Invoke? && c[i].call.Post? ==>
        && o.uploadUrl.Ok? && file.Some?
        && c[i].call == Post(o.uploadUrl.value, file.value.mimeType, file.value)
  {
  }

  /** The `try` block runs to its end exactly when every step succeeds. */
  lemma CompletesIffSucceeds(kind: Kind, file: Option<File>, me: Option<User>,
                             conversation: Option<Conversation>, o: Outcomes)
    ensures TryBlock(kind, file, me, conversation, o).completed <==> Succeeds(file, me, conversation, o)
  {
  }

  /**
   * A handler's outline: flag on, calls, one closing effect, flag off. Its
   * final state is the closing effect applied with the flag off, and its
   * only notification is the closing effect's.
   */
  lemma {:induction false} Bracketed(v: View, calls: seq<Effect>, last: Effect)
    requires forall k :: 0 <= k < |calls| ==> calls[k].Invoke?
    ensures var t := [SetLoading(true)] + calls + [last, SetLoading(false)];
      && Replay(v, t) == Apply(v.(loading := true), last).(loading := false)
      && Toasts(t) == Toasts([last])
  {
    var on := [SetLoading(true)];
    var t := on + calls + [last, SetLoading(false)];
    assert Replay(v, on) == v.(loading := true) by {
      assert on[..0] == [];
    }
    ReplayAppend(v, on, calls);
    ReplayInert(Replay(v, on), calls);
    var w := v.(loading := true);
    assert Replay(v, on + calls) == w;
    ReplayAppend(v, on + calls, [last, SetLoading(false)]);
    assert Replay(w, [last, SetLoading(false)]) == Apply(w, last).(loading := false) by {
      assert [last, SetLoading(false)][..1] == [last];
      assert [last][..0] == [];
      assert Replay(w, [last]) == Apply(w, last);
    }
    ToastsAppend(on, calls);
    ToastsOfCalls(calls);
    ToastsAppend(on + calls, [last, SetLoading(false)]);
    assert Toasts([last, SetLoading(false)]) == Toasts([last]) by {
      assert [last, SetLoading(false)][1..] == [SetLoading(false)];
      assert [SetLoading(false)][1..] == [];
      assert [last][1..] == [];
    }
  }

  /**
   * After a send settles: the loading flag is off; on success that kind's
   * selection is null, otherwise it is unchanged; the other kind's selection
   * is unchanged; and exactly one error notification was shown iff it failed.
   */
  lemma SendSettles(v: View, kind: Kind, me: Option<User>,
                    conversation: Option<Conversation>, o: Outcomes)
    ensures var file := Selected(v, kind);
      var t := SendTrace(kind, file, me, conversation, o);
      var w := Replay(v, t);
      && !w.loading
      && Selected(w, kind) == (if Succeeds(file, me, conversation, o) then None else file)
      && Selected(w, Other(kind)) == Selected(v, Other(kind))
      && Toasts(t) == (if Succeeds(file, me, conversation, o) then [] else [FailureMessage(kind)])
  {
    var file := Selected(v, kind);
    var a := TryBlock(kind, file, me, conversation, o);
    var last := Closing(kind, a.completed);
    CallsInFixedOrder(kind, file, me, conversation, o);
    CompletesIffSucceeds(kind, file, me, conversation, o);
    Bracketed(v, a.calls, last);
    assert Toasts([last]) == if a.completed then [] else [FailureMessage(kind)];
  }

  /**
   * At every collaborator call of a send the loading flag is on, so the Send
   * buttons of both kinds are disabled: the flag is shared by the two kinds.
   */
  lemma LoadingWhileCalling(v: View, kind: Kind, me: Option<User>,
                            conversation: Option<Conversation>, o: Outcomes)
    ensures var t := SendTrace(kind, Selected(v, kind), me, conversation, o);
      forall i :: 0 <= i < |t| && t[i].Invoke? ==>
        && Replay(v, t[..i]).loading
        && !SendAvailable(Replay(v, t[..i]), Image)
        && !SendAvailable(Replay(v, t[..i]), Video)
  {
    var file := Selected(v, kind);
    var a := TryBlock(kind, file, me, conversation, o);
    var calls := a.calls;
    CallsInFixedOrder(kind, file, me, conversation, o);
    var t := SendTrace(kind, file, me, conversation, o);
    forall i | 0 <= i < |t| && t[i].Invoke?
      ensures Replay(v, t[..i]).loading
    {
      assert 1 <= i <= |calls|;
      assert t[..i] == [SetLoading(true)] + calls[..i - 1];
      ReplayAppend(v, [SetLoading(true)], calls[..i - 1]);
      ReplayInert(Replay(v, [SetLoading(true)]), calls[..i - 1]);
    }
  }

  // ---------------------------------------------------------------------
  // The component

  /**
   * The dropdown's state cells, and a ghost trace of everything its
   * handlers have done; the cells are always the replay of the trace.
   */
  class MediaDropdown {
    var selectedImage: Option<File>
    var selectedVideo: Option<File>
    var isLoading: bool
    ghost var trace: seq<Effect>

    function State(): View
      reads this
    {
      View(selectedImage, selectedVideo, isLoading)
    }

    function Selection(kind: Kind): Option<File>
      reads this
    {
      Selected(State(), kind)
    }

    ghost predicate Valid()
      reads this
    {
      State() == Replay(Initial, trace)
    }

    constructor ()
      ensures Valid() && State() == Initial && trace == []
    {
      selectedImage, selectedVideo, isLoading := None, None, false;
      trace := [];
    }

    /** `setIsLoading`. */
    method SetIsLoading(on: bool)
      requires Valid()
      modifies this
      ensures Valid() && trace == old(trace) + [SetLoading(on)]
      ensures selectedImage == old(selectedImage) && selectedVideo == old(selectedVideo)
      ensures isLoading == on
    {
      isLoading := on;
      trace := trace + [SetLoading(on)];
    }

    /** `setSelectedImage` and `setSelectedVideo`: only the cell of that kind changes. */
    method SetSelected(kind: Kind, f: Option<File>)
      requires Valid()
      modifies this
      ensures Valid() && trace == old(trace) + [SetSelection(kind, f)]
      ensures Selection(kind) == f && Selection(Other(kind)) == old(Selection(Other(kind)))
      ensures isLoading == old(isLoading)
    {
      if kind == Image {
        selectedImage := f;
      } else {
        selectedVideo := f;
      }
      trace := trace + [SetSelection(kind, f)];
    }

    /** Records a collaborator call or a notification; the state cells do not change. */
    ghost method Record(e: Effect)
      requires Valid() && (e.Invoke? || e.Toast?)
      modifies this`trace
      ensures Valid() && trace == old(trace) + [e]
    {
      trace := trace + [e];
    }

    /** A file input's `onChange`: the first chosen file replaces that kind's selection. */
    method OnFileChange(kind: Kind, files: seq<File>)
      requires Valid()
      modifies this
      ensures Valid() && trace == old(trace) + [SetSelection(kind, FirstFile(files))]
      ensures Selection(kind) == (if |files| > 0 then Some(files[0]) else None)
      ensures Selection(Other(kind)) == old(Selection(Other(kind)))
      ensures isLoading == old(isLoading)
    {
      SetSelected(kind, FirstFile(files));
    }

    /** A dialog's `onClose`: that kind's selection becomes null, nothing else changes. */
    method OnDialogClose(kind: Kind)
      requires Valid()
      modifies this
      ensures Valid() && trace == old(trace) + [SetSelection(kind, None)]
      ensures Selection(kind) == None
      ensures Selection(Other(kind)) == old(Selection(Other(kind)))
      ensures isLoading == old(isLoading)
    {
      SetSelected(kind, None);
    }

    /**
     * The `try` block of a send handler: the awaited collaborator calls in
     * order, stopping at the first one that throws. Returns whether it threw.
     */
    method TrySend(kind: Kind, me: Option<User>, conversation: Option<Conversation>,
                   o: Outcomes) returns (thrown: bool)
      requires Valid()
      modifies this`trace
      ensures Valid()
      ensures var a := TryBlock(kind, Selection(kind), me, conversation, o);
        trace == old(trace) + a.calls && thrown == !a.completed
    {
      thrown := false;
      var postUrl := "";
      var storageId: Option<Id> := None;
      // Step 1: ask the storage backend for an upload URL.
      Record(Invoke(GenerateUploadUrl));
      if o.uploadUrl.Err? {
        thrown := true;
      } else {
        postUrl := o.uploadUrl.value;
      }
      // Step 2: read the selection's type (throws on null), then POST the file to the URL.
      if !thrown {
        var selected := Selection(kind);
        if selected.None? {
          thrown := true;
        } else {
          Record(Invoke(Post(postUrl, selected.value.mimeType, selected.value)));
          thrown := o.post.Err?;
        }
      }
      // Step 3: parse the response body and take its storage id field.
      if !thrown {
        Record(Invoke(ReadJson));
        if o.json.Err? {
          thrown := true;
        } else {
          storageId := o.json.value;
        }
      }
      // Step 4: build the commit arguments (throws without a user or a conversation), then commit.
      if !thrown {
        if me.None? || conversation.None? {
          thrown := true;
        } else {
          Record(Invoke(CommitCall(kind, storageId, me.value.id, conversation.value.id)));
          thrown := o.commit.Err?;
        }
      }
    }

    /**
     * The `catch` and `finally` of a send handler: a completed `try` block
     * clears that kind's selection, one that threw shows the failure toast;
     * either way the loading flag is cleared.
     */
    method Settle(kind: Kind, thrown: bool)
      requires Valid()
      modifies this
      ensures Valid()
      ensures trace == old(trace) + [Closing(kind, !thrown), SetLoading(false)]
      ensures Selection(kind) == if thrown then old(Selection(kind)) else None
      ensures Selection(Other(kind)) == old(Selection(Other(kind)))
      ensures !isLoading
    {
      if !thrown {
        SetSelected(kind, None);
      } else {
        Record(Toast(FailureMessage(kind)));
      }
      SetIsLoading(false);
    }

    /**
     * `handleSendImage` (kind Image) and `handleSendVideo` (kind Video): set
     * the loading flag, run the `try` block, then settle. The settlement of
     * each awaited call is a parameter, as are the current user (`me`) and
     * the store's selected conversation.
     */
    method HandleSend(kind: Kind, me: Option<User>, conversation: Option<Conversation>,
                      o: Outcomes)
      requires Valid()
      modifies this
      ensures Valid()
      ensures trace == old(trace) + SendTrace(kind, old(Selection(kind)), me, conversation, o)
      ensures Selection(kind)
              == if Succeeds(old(Selection(kind)), me, conversation, o) then None
                 else old(Selection(kind))
      ensures Selection(Other(kind)) == old(Selection(Other(kind)))
      ensures !isLoading
      ensures Toasts(trace)
              == Toasts(old(trace))
                 + if Succeeds(old(Selection(kind)), me, conversation, o) then []
                   else [FailureMessage(kind)]
    {
      ghost var file := Selection(kind);
      ghost var start := trace;
      SendSettles(State(), kind, me, conversation, o);
      ToastsAppend(start, SendTrace(kind, file, me, conversation, o));
      SetIsLoading(true);
      var thrown := TrySend(kind, me, conversation, o);
      Settle(kind, thrown);
      CompletesIffSucceeds(kind, file, me, conversation, o);
    }
  }
}
