/** The per-download lifecycle that registerListener wires up (index.js:21-98)
    and the one-shot `download` wrapper (index.js:106-118). A `Listener` is the
    closure registered on a session; `WillDownload` is its body, and `Updated`
    and `Done` are the handlers it attaches to the item. */
module Downloads {
  import opened Paths
  import opened Emitter

  /** The `state` argument of an item's `done` event. */
  datatype DoneState = Interrupted | Cancelled | Completed | Other(name: string)

  /** A download item, as far as the listener reads and changes it. */
  class Item {
    const filename: string     // item.getFilename()
    const mimeType: string     // item.getMimeType()
    var savePath: string       // "" until setSavePath is called
    var cancelled: bool

    constructor (filename: string, mimeType: string)
      ensures this.filename == filename && this.mimeType == mimeType
      ensures savePath == "" && !cancelled
    {
      this.filename := filename;
      this.mimeType := mimeType;
      savePath := "";
      cancelled := false;
    }

    method SetSavePath(path: string)
      modifies this
      ensures savePath == path && cancelled == old(cancelled)
    {
      savePath := path;
    }

    method Cancel()
      modifies this
      ensures cancelled && savePath == old(savePath)
    {
      cancelled := true;
    }
  }

  /** The arguments the completion callback `cb` receives, if it is called. */
  datatype Callback =
    | NotCalled
    | CalledWithError(message: string)   // cb(new Error(message))
    | CalledWithItem(item: Item)          // cb(null, item)

  /** The state of the promise that `download` returns. */
  datatype Settlement = Pending | Resolved(item: Item) | Rejected(message: string)

  /** What `download`'s callback does to its promise (index.js:109-115): an
      Error is always truthy, so the promise is rejected exactly when the
      callback got an error and resolved exactly when it got the item; a
      promise that has already settled keeps its state. */
  function Settle(s: Settlement, cb: Callback): (r: Settlement)
    ensures !s.Pending? ==> r == s
    ensures s.Pending? ==> (r.Pending? <==> cb.NotCalled?)
    ensures s.Pending? ==> (r.Resolved? <==> cb.CalledWithItem?)
    ensures s.Pending? && r.Resolved? ==> r.item == cb.item
    ensures s.Pending? ==> (r.Rejected? <==> cb.CalledWithError?)
    ensures s.Pending? && r.Rejected? ==> r.message == cb.message
  {
    if !s.Pending? then s
    else match cb
      case NotCalled => s
      case CalledWithError(m) => Rejected(m)
      case CalledWithItem(item) => Resolved(item)
  }

  class Promise {
    var state: Settlement

    constructor ()
      ensures state == Pending
    {
      state := Pending;
    }

    method Resolve(item: Item)
      modifies this
      ensures state == if old(state).Pending? then Resolved(item) else old(state)
    {
      if state.Pending? { state := Resolved(item); }
    }

    method Reject(message: string)
      modifies this
      ensures state == if old(state).Pending? then Rejected(message) else old(state)
    {
      if state.Pending? { state := Rejected(message); }
    }
  }

  /** The `cb` argument of registerListener: the default no-op, or the one
      `download` passes, which settles its promise. */
  datatype Sink = Discard | SettleOn(promise: Promise)

  function SinkFrame(sink: Sink): set<object> {
    if sink.SettleOn? then {sink.promise} else {}
  }

  /** What the listener's body computes for one item and its handlers then use. */
  datatype Capture = Capture(
    item: Item,
    filename: string,
    filePath: string,
    errorMessage: string,
    canceledMessage: string)

  datatype Option<T> = None | Some(value: T)

  /** What the `done` handler does besides unregistering: the callback it makes
      and the path it reveals in its folder, if any (shell.showItemInFolder). */
  datatype DoneEffect = DoneEffect(callback: Callback, shown: Option<string>)

  /** The `done` handler's case analysis (index.js:72-90). Exactly the three
      known states call the callback, once; only `completed` succeeds, and only
      it can reveal a file, always the path captured when the download started,
      even when `saveAs` left the choice of location to the user. */
  function DoneEffectOf(opts: Options, cap: Capture, state: DoneState, env: Env): (e: DoneEffect)
    ensures e.callback.NotCalled? <==> state.Other?
    ensures e.callback.CalledWithItem? <==> state.Completed?
    ensures e.callback.CalledWithItem? ==> e.callback.item == cap.item
    ensures state.Interrupted? ==>
              e.callback == CalledWithError(env.fill(cap.errorMessage, cap.filename))
    ensures state.Cancelled? ==>
              e.callback == CalledWithError(env.fill(cap.canceledMessage, cap.filename))
    ensures e.shown ==
              if state.Completed? && opts.openFolderWhenDone then Some(cap.filePath) else None
  {
    match state
    case Interrupted => DoneEffect(CalledWithError(env.fill(cap.errorMessage, cap.filename)), None)
    case Cancelled => DoneEffect(CalledWithError(env.fill(cap.canceledMessage, cap.filename)), None)
    case Completed =>
      DoneEffect(CalledWithItem(cap.item), if opts.openFolderWhenDone then Some(cap.filePath) else None)
    case Other(_) => DoneEffect(NotCalled, None)
  }

  /** An assumption about the template helper, not something this model
      derives: a template with no `{` at all, and so no placeholder of any key,
      comes back unchanged. */
  ghost predicate FillKeepsBraceFreeText(env: Env) {
    forall t, f :: '{' !in t ==> env.fill(t, f) == t
  }

  /** Under that assumption, a caller's message with no `{` in it reaches the
      callback verbatim. */
  lemma PlainMessageVerbatim(opts: Options, cap: Capture, state: DoneState, env: Env)
    requires FillKeepsBraceFreeText(env)
    requires state.Interrupted? ==> '{' !in cap.errorMessage
    requires state.Cancelled? ==> '{' !in cap.canceledMessage
    requires state.Interrupted? || state.Cancelled?
    ensures DoneEffectOf(opts, cap, state, env).callback ==
            CalledWithError(if state.Interrupted? then cap.errorMessage else cap.canceledMessage)
  {
  }

  class Session {
    var listeners: seq<Listener>   // its 'will-download' listeners, oldest first

    constructor ()
      ensures listeners == []
    {
      listeners := [];
    }

    method On(l: Listener)
      modifies this
      ensures listeners == old(listeners) + [l]
    {
      listeners := listeners + [l];
    }

    method RemoveListener(l: Listener)
      modifies this
      ensures listeners == RemoveLast(old(listeners), l)
    {
      listeners := RemoveLast(listeners, l);
    }
  }

  /** The closure registerListener creates, with what it captures. */
  class Listener {
    const session: Session
    const opts: Options
    const sink: Sink

    constructor (session: Session, opts: Options, sink: Sink)
      ensures this.session == session && this.opts == opts && this.sink == sink
    {
      this.session := session;
      this.opts := opts;
      this.sink := sink;
    }

    /** The listener's body for a new item (index.js:29-48): the item's save path
        is set to the resolved path exactly when `saveAs` is off, and nothing
        else about the item changes. */
    method WillDownload(item: Item, env: Env) returns (cap: Capture)
      modifies item
      ensures cap.item == item && cap.filename == item.filename
      ensures cap.filePath == ResolveFilePath(opts, item.filename, item.mimeType, env)
      ensures cap.errorMessage == ErrorTemplate(opts)
      ensures cap.canceledMessage == CanceledTemplate(opts)
      ensures item.savePath == if opts.saveAs then old(item.savePath) else cap.filePath
      ensures item.cancelled == old(item.cancelled)
    {
      var filePath := ResolveFilePath(opts, item.filename, item.mimeType, env);
      cap := Capture(item, item.filename, filePath, ErrorTemplate(opts), CanceledTemplate(opts));
      if !opts.saveAs {
        item.SetSavePath(filePath);
      }
    }

    /** One `updated` tick (index.js:60-64); `answer` is what `opts.onCancel()`
        returned on this tick. The item is cancelled exactly when there is an
        onCancel function and it answered true. */
    method Updated(cap: Capture, answer: bool)
      modifies cap.item
      ensures cap.item.cancelled == (old(cap.item.cancelled) || (opts.hasOnCancel && answer))
      ensures cap.item.savePath == old(cap.item.savePath)
    {
      if opts.hasOnCancel {
        if answer {
          cap.item.Cancel();
        }
      }
    }

    /** The `done` handler (index.js:72-93): it makes the callback of
        `DoneEffectOf`, and when `unregisterWhenDone` is set it removes this
        listener from the session whatever the state, touching no other. */
    method Done(cap: Capture, state: DoneState, env: Env) returns (effect: DoneEffect)
      modifies session, SinkFrame(sink)
      ensures effect == DoneEffectOf(opts, cap, state, env)
      ensures session.listeners ==
                if opts.unregisterWhenDone then RemoveLast(old(session.listeners), this)
                else old(session.listeners)
      ensures sink.SettleOn? ==> sink.promise.state == Settle(old(sink.promise.state), effect.callback)
    {
      effect := DoneEffectOf(opts, cap, state, env);
      if sink.SettleOn? {
        match effect.callback
        case CalledWithError(m) => sink.promise.Reject(m);
        case CalledWithItem(item) => sink.promise.Resolve(item);
        case NotCalled =>
      }
      if opts.unregisterWhenDone {
        session.RemoveListener(this);
      }
    }
  }

  /** registerListener (index.js:21-98): a new listener is added to the session. */
  method RegisterListener(session: Session, opts: Options, sink: Sink) returns (l: Listener)
    modifies session
    ensures fresh(l) && l.session == session && l.opts == opts && l.sink == sink
    ensures session.listeners == old(session.listeners) + [l]
  {
    l := new Listener(session, opts, sink);
    session.On(l);
  }

  /** The options `download` registers with (index.js:107): the caller's, with
      `unregisterWhenDone` forced on and nothing else changed. */
  function OneShot(opts: Options): (r: Options)
    ensures r.unregisterWhenDone
    ensures r.(unregisterWhenDone := opts.unregisterWhenDone) == opts
  {
    opts.(unregisterWhenDone := true)
  }

  /** `download(win, url, opts)` (index.js:106-118), up to the point where the
      host starts fetching the URL: a pending promise and a one-shot listener
      on the window's session that settles it. */
  method Download(session: Session, opts: Options) returns (l: Listener, p: Promise)
    modifies session
    ensures fresh(l) && fresh(p) && p.state == Pending
    ensures l.session == session && l.opts == OneShot(opts) && l.sink == SettleOn(p)
    ensures session.listeners == old(session.listeners) + [l]
  {
    p := new Promise();
    l := RegisterListener(session, OneShot(opts), SettleOn(p));
  }

  /** A whole programmatic download, with another listener `l2` registered on
      the same session after the download started, so that `l2` does not see
      this item. Only the one-shot listener's handlers are run; listeners that
      were on the session before would receive the item as well, which this
      method does not follow. The save path is the one resolved from the
      caller's options unless `saveAs` is set, and the item's `cancelled` flag
      is unchanged. Whatever state the item ends in, the one-shot
      listener `l` has left the session, so a later download cannot reach it,
      and every other listener stays. The promise resolves with the item
      exactly when the download completed, is rejected exactly when it was
      interrupted or cancelled, and stays pending otherwise. A completed
      download with `openFolderWhenDone` reveals the resolved path, even when
      `saveAs` left the item's save path untouched. */
  method DownloadLifecycle(session: Session, opts: Options, other: Options, item: Item,
                           state: DoneState, env: Env)
    returns (l: Listener, l2: Listener, p: Promise, effect: DoneEffect)
    modifies session, item
    ensures fresh(l) && fresh(l2) && fresh(p)
    ensures session.listeners == old(session.listeners) + [l2]
    ensures l !in session.listeners
    ensures item.cancelled == old(item.cancelled)
    ensures item.savePath ==
              if opts.saveAs then old(item.savePath)
              else ResolveFilePath(opts, item.filename, item.mimeType, env)
    ensures effect.shown ==
              if state.Completed? && opts.openFolderWhenDone
              then Some(ResolveFilePath(opts, item.filename, item.mimeType, env))
              else None
    ensures p.state.Resolved? <==> state.Completed?
    ensures p.state.Resolved? ==> p.state.item == item
    ensures p.state.Rejected? <==> state.Interrupted? || state.Cancelled?
    ensures p.state.Rejected? && state.Interrupted? ==>
              p.state.message == env.fill(ErrorTemplate(opts), item.filename)
    ensures p.state.Rejected? && state.Cancelled? ==>
              p.state.message == env.fill(CanceledTemplate(opts), item.filename)
  {
    var before := session.listeners;
    l, p := Download(session, opts);
    var cap := l.WillDownload(item, env);
    l2 := RegisterListener(session, other, Discard);
    effect := l.Done(cap, state, env);
    RemoveLastSplit(before, l, [l2]);
    assert session.listeners == before + [l2];
  }
}
