/**
 * The audio player's handlers (audioplayer.js:40-234).
 *
 * The plugin's process-wide state (`drawn`, `watchedPaths`), the per-pane
 * state of every AudioPlayer editor instance (`container`, `currentSession`)
 * and the per-document sessions form one `State`; each handler is a function
 * from the state before to the state after, and the class `Controller` at the
 * end runs the same handlers by updating its fields in place. The calls the
 * plugin makes into its collaborators (watcher, the audio element's load and
 * play, the alert dialog, the CSS injector) are appended to an effect log
 * instead of being performed.
 */
module AudioPlayer {
  import opened Wrappers
  import opened Paths
  import opened Themes

  type DocId = nat
  type TabId = nat
  /** An AudioPlayer editor instance; once drawn, it owns exactly one container, named by the same id. */
  type PaneId = nat

  /** `session.paused`: never set, or set by the `pause` (true) or `playing` (false) listener. */
  datatype PauseFlag = Unset | Paused | Playing

  /** `audio.style.display`: the element's initial "", then "none" or "initial". */
  datatype Display = Default | Hidden | Shown

  /**
   * The `<audio>` element of a session. `nativePaused` is the element's own
   * `paused` attribute. `parent` is the pane whose container the element
   * hangs in: a DOM node has at most one parent, and appending it to another
   * container moves it.
   */
  datatype Widget = Widget(src: string, nativePaused: bool, display: Display, parent: Option<PaneId>)

  /** The plugin's part of a document session: the widget and the remembered play state. */
  datatype Session = Session(widget: Widget, paused: PauseFlag)

  /** A tab as the plugin sees it; `path` is None when `tab.path` is not a string. */
  datatype Tab = Tab(id: TabId, path: Option<string>, style: TabStyle)

  /** An audio document; `tab` is None when `audioDoc.tab` is not an object. */
  datatype Doc = Doc(tab: Option<Tab>, title: Option<string>, tooltip: Option<string>)

  /** A drawn AudioPlayer editor instance: its `currentSession`, named by document. */
  datatype Pane = Pane(current: Option<DocId>)

  /** A call into a collaborator. */
  datatype Effect =
    | WatcherWatch(path: string)              // watcher.watch(path)
    | WatcherUnwatch(path: string)            // watcher.unwatch(path)
    | AudioLoad(doc: DocId)                   // session.audio.load()
    | AudioPlay(doc: DocId)                   // session.audio.play()
    | ShowAlert(path: string, closes: TabId)  // showAlert(...), whose acknowledgment calls tab.close
    | InsertCss                               // ui.insertCss(...)

  /**
   * Everything the handlers read or write: the two plugin-wide variables, the
   * drawn editor instances, the sessions that have a widget, the documents,
   * and the calls made so far.
   */
  datatype State = State(
    drawn: bool,
    watchedPaths: map<string, TabId>,
    panes: map<PaneId, Pane>,
    sessions: map<DocId, Session>,
    docs: map<DocId, Doc>,
    log: seq<Effect>)

  /** A freshly created `<audio>` element: no source, paused, default display, not in the document. */
  function NewWidget(): Widget {
    Widget("", true, Default, None)
  }

  /** A widget that hangs in a container and is not hidden. */
  predicate Showing(w: Widget) {
    w.parent.Some? && w.display != Hidden
  }

  function Hide(s: Session): Session {
    s.(widget := s.widget.(display := Hidden))
  }

  /** `audio.src = url; audio.load()`: the load algorithm leaves the element paused. */
  function Reload(s: Session, url: string): Session {
    s.(widget := s.widget.(src := url, nativePaused := true))
  }

  /** How many times the plugin made the call `e`. */
  function Count(log: seq<Effect>, e: Effect): nat {
    if log == [] then 0 else Count(log[..|log| - 1], e) + (if log[|log| - 1] == e then 1 else 0)
  }

  lemma CountAppend(log: seq<Effect>, x: Effect, e: Effect)
    ensures Count(log + [x], e) == Count(log, e) + (if x == e then 1 else 0)
  {
    assert (log + [x])[..|log|] == log;
  }

  // ---------------------------------------------------------------------------
  // Invariants

  /** How panes, current sessions and widgets hang together. */
  ghost predicate Layout(panes: map<PaneId, Pane>, sessions: map<DocId, Session>) {
    // a pane's current session has a widget
    && (forall p :: p in panes && panes[p].current.Some? ==> panes[p].current.value in sessions)
    // a widget hangs, if anywhere, in the container of a drawn pane
    && (forall d :: d in sessions && sessions[d].widget.parent.Some? ==> sessions[d].widget.parent.value in panes)
    // a widget shown in a container is the current session of that container's pane
    && (forall d :: d in sessions && Showing(sessions[d].widget) ==>
          panes[sessions[d].widget.parent.value].current == Some(d))
  }

  /** In every pane, the current session's widget is shown whenever it hangs in that pane's container. */
  ghost predicate ActiveShownIn(panes: map<PaneId, Pane>, sessions: map<DocId, Session>) {
    forall p :: p in panes && panes[p].current.Some? && panes[p].current.value in sessions &&
      sessions[panes[p].current.value].widget.parent == Some(p)
      ==> sessions[panes[p].current.value].widget.display == Shown
  }

  /** The CSS has been inserted once if a pane has been drawn, and never otherwise. */
  ghost predicate CssOnce(log: seq<Effect>, drawn: bool) {
    Count(log, InsertCss) == if drawn then 1 else 0
  }

  /** The watcher was told to watch a path once more than to unwatch it exactly while the path is registered. */
  ghost predicate WatchBalanced(log: seq<Effect>, watched: map<string, TabId>) {
    forall path :: Count(log, WatcherWatch(path)) == Count(log, WatcherUnwatch(path)) + (if path in watched then 1 else 0)
  }

  /** The invariant every handler keeps. */
  ghost predicate Inv(s: State) {
    Layout(s.panes, s.sessions) && CssOnce(s.log, s.drawn) && WatchBalanced(s.log, s.watchedPaths)
  }

  /**
   * Each container shows its pane's current session. Every handler keeps this
   * except documentActivate as written (see Scenarios.MoveThenOpenHidesMovedWidget).
   */
  ghost predicate ActiveShown(s: State) {
    ActiveShownIn(s.panes, s.sessions)
  }

  /** Registering an unregistered path while telling the watcher keeps the balance. */
  lemma WatchBalancedAfterWatch(log: seq<Effect>, watched: map<string, TabId>, path: string, tab: TabId)
    requires WatchBalanced(log, watched) && path !in watched
    ensures WatchBalanced(log + [WatcherWatch(path)], watched[path := tab])
  {
    forall q ensures Count(log + [WatcherWatch(path)], WatcherWatch(q)) ==
      Count(log + [WatcherWatch(path)], WatcherUnwatch(q)) + (if q in watched[path := tab] then 1 else 0)
    {
      CountAppend(log, WatcherWatch(path), WatcherWatch(q));
      CountAppend(log, WatcherWatch(path), WatcherUnwatch(q));
    }
  }

  /** Forgetting a registered path while telling the watcher keeps the balance. */
  lemma WatchBalancedAfterUnwatch(log: seq<Effect>, watched: map<string, TabId>, path: string)
    requires WatchBalanced(log, watched) && path in watched
    ensures WatchBalanced(log + [WatcherUnwatch(path)], watched - {path})
  {
    forall q ensures Count(log + [WatcherUnwatch(path)], WatcherWatch(q)) ==
      Count(log + [WatcherUnwatch(path)], WatcherUnwatch(q)) + (if q in watched - {path} then 1 else 0)
    {
      CountAppend(log, WatcherUnwatch(path), WatcherWatch(q));
      CountAppend(log, WatcherUnwatch(path), WatcherUnwatch(q));
    }
  }

  /** A call that is not to the watcher keeps the balance. */
  lemma WatchBalancedAfterOther(log: seq<Effect>, watched: map<string, TabId>, e: Effect)
    requires WatchBalanced(log, watched) && !e.WatcherWatch? && !e.WatcherUnwatch?
    ensures WatchBalanced(log + [e], watched)
  {
    forall q ensures Count(log + [e], WatcherWatch(q)) == Count(log + [e], WatcherUnwatch(q)) + (if q in watched then 1 else 0)
    {
      CountAppend(log, e, WatcherWatch(q));
      CountAppend(log, e, WatcherUnwatch(q));
    }
  }

  /** Inserting the CSS on the first draw, and recording anything else, keeps it inserted once. */
  lemma CssOnceAfter(log: seq<Effect>, drawn: bool, e: Effect)
    requires CssOnce(log, drawn) && (e == InsertCss ==> !drawn)
    ensures CssOnce(log + [e], drawn || e == InsertCss)
  {
    CountAppend(log, e, InsertCss);
  }

  /** A call that is neither to the watcher nor the CSS injector keeps the log's part of the invariant. */
  lemma LogInvAfterOther(s: State, e: Effect)
    requires Inv(s) && !e.WatcherWatch? && !e.WatcherUnwatch? && !e.InsertCss?
    ensures CssOnce(s.log + [e], s.drawn) && WatchBalanced(s.log + [e], s.watchedPaths)
  {
    CssOnceAfter(s.log, s.drawn, e);
    WatchBalancedAfterOther(s.log, s.watchedPaths, e);
  }

  /** Changing a session without moving, showing or hiding its widget keeps the layout. */
  lemma LayoutAfterEdit(panes: map<PaneId, Pane>, sessions: map<DocId, Session>, d: DocId, s: Session)
    requires Layout(panes, sessions)
    requires d in sessions ==> s.widget.parent == sessions[d].widget.parent && s.widget.display == sessions[d].widget.display
    requires d !in sessions ==> s.widget.parent.None?
    ensures Layout(panes, sessions[d := s])
    ensures ActiveShownIn(panes, sessions) ==> ActiveShownIn(panes, sessions[d := s])
  {
  }

  // ---------------------------------------------------------------------------
  // setPath and unwatch

  /** `audioDoc` is an object whose tab is an object with a string path (audioplayer.js:59). */
  predicate WellFormed(s: State, d: DocId) {
    d in s.docs && s.docs[d].tab.Some? && s.docs[d].tab.value.path.Some?
  }

  function PathOf(s: State, d: DocId): string
    requires WellFormed(s, d)
  {
    s.docs[d].tab.value.path.value
  }

  /** setPath gets past both early returns: the resolved URL differs from the widget's source (audioplayer.js:59-70). */
  predicate Reloads(s: State, url: string -> string, d: DocId) {
    WellFormed(s, d) && d in s.sessions && s.sessions[d].widget.src != ResolveUrl(PathOf(s, d), url)
  }

  /**
   * setPath (audioplayer.js:58-84): unless the document is malformed or the
   * widget already has the document's URL, point the widget at that URL and
   * reload it, retitle the document, and register its path with the watcher
   * if no tab has registered it yet. The document's session has a widget:
   * the plugin calls setPath only after documentLoad has made one.
   */
  function SetPathStep(s: State, url: string -> string, d: DocId): State
    requires WellFormed(s, d) ==> d in s.sessions
  {
    if !WellFormed(s, d) then s
    else
      var tab := s.docs[d].tab.value;
      var path := tab.path.value;
      var session := s.sessions[d];
      var fullPath := ResolveUrl(path, url);
      if session.widget.src == fullPath then s
      else
        var loaded := s.(
          sessions := s.sessions[d := Reload(session, fullPath)],
          log := s.log + [AudioLoad(d)],
          docs := s.docs[d := s.docs[d].(title := Some(Basename(path)), tooltip := Some(path))]);
        if path in s.watchedPaths then loaded
        else loaded.(log := loaded.log + [WatcherWatch(path)], watchedPaths := s.watchedPaths[path := tab.id])
  }

  lemma SetPathKeepsInvariant(s: State, url: string -> string, d: DocId)
    requires Inv(s) && (WellFormed(s, d) ==> d in s.sessions)
    ensures Inv(SetPathStep(s, url, d))
    ensures ActiveShown(s) ==> ActiveShown(SetPathStep(s, url, d))
  {
    if Reloads(s, url, d) {
      var path, session := PathOf(s, d), s.sessions[d];
      LayoutAfterEdit(s.panes, s.sessions, d, Reload(session, ResolveUrl(path, url)));
      LogInvAfterOther(s, AudioLoad(d));
      if path !in s.watchedPaths {
        WatchBalancedAfterWatch(s.log + [AudioLoad(d)], s.watchedPaths, path, s.docs[d].tab.value.id);
        CssOnceAfter(s.log + [AudioLoad(d)], s.drawn, WatcherWatch(path));
      }
    }
  }

  /** setPath changes something exactly when it reloads: a malformed document or an unchanged URL is a no-op. */
  lemma SetPathChangesIffReloads(s: State, url: string -> string, d: DocId)
    requires WellFormed(s, d) ==> d in s.sessions
    ensures SetPathStep(s, url, d) != s <==> Reloads(s, url, d)
  {
    if Reloads(s, url, d) {
      assert |SetPathStep(s, url, d).log| > |s.log|;
    }
  }

  /**
   * A reload points the widget at the URL and leaves the path registered,
   * to the tab that registered it first.
   */
  lemma SetPathReloads(s: State, url: string -> string, d: DocId)
    requires Reloads(s, url, d)
    ensures var r, path := SetPathStep(s, url, d), PathOf(s, d);
      && r.sessions == s.sessions[d := Reload(s.sessions[d], ResolveUrl(path, url))]
      && r.watchedPaths == s.watchedPaths[path := if path in s.watchedPaths then s.watchedPaths[path] else s.docs[d].tab.value.id]
  {
  }

  /** A reload titles the document with the last segment of its path and sets its tooltip to the path. */
  lemma SetPathTitles(s: State, url: string -> string, d: DocId)
    requires Reloads(s, url, d)
    ensures var r, path := SetPathStep(s, url, d), PathOf(s, d);
      && d in r.docs && r.docs[d].tooltip == Some(path) && r.docs[d].title.Some?
      && var title := r.docs[d].title.value;
      && '/' !in title && |title| <= |path| && path[|path| - |title|..] == title
      && (|title| < |path| ==> path[|path| - |title| - 1] == '/')
  {
    var path := PathOf(s, d);
    assert SetPathStep(s, url, d).docs[d].title == Some(Basename(path));
    BasenameIsLastSegment(path);
  }

  /**
   * A reload loads the widget once and calls the watcher only for a path no
   * tab has registered yet; otherwise setPath calls no collaborator.
   */
  lemma SetPathCalls(s: State, url: string -> string, d: DocId)
    requires WellFormed(s, d) ==> d in s.sessions
    ensures var r := SetPathStep(s, url, d);
      && Count(r.log, AudioLoad(d)) == Count(s.log, AudioLoad(d)) + (if Reloads(s, url, d) then 1 else 0)
      && (WellFormed(s, d) ==>
            var path := PathOf(s, d);
            Count(r.log, WatcherWatch(path)) ==
              Count(s.log, WatcherWatch(path)) + (if Reloads(s, url, d) && path !in s.watchedPaths then 1 else 0))
      && (!Reloads(s, url, d) ==> r.log == s.log)
      && forall e: Effect :: e != AudioLoad(d) && (WellFormed(s, d) ==> e != WatcherWatch(PathOf(s, d))) ==>
           Count(r.log, e) == Count(s.log, e)
  {
    SetPathLog(s, url, d);
    if Reloads(s, url, d) {
      var r, path := SetPathStep(s, url, d), PathOf(s, d);
      forall e: Effect ensures Count(r.log, e) == Count(s.log, e) + (if e == AudioLoad(d) then 1 else 0) + (if path !in s.watchedPaths && e == WatcherWatch(path) then 1 else 0) {
        CountAppend(s.log, AudioLoad(d), e);
        CountAppend(s.log + [AudioLoad(d)], WatcherWatch(path), e);
      }
    }
  }

  /** The calls setPath appends to the log. */
  lemma SetPathLog(s: State, url: string -> string, d: DocId)
    requires WellFormed(s, d) ==> d in s.sessions
    ensures SetPathStep(s, url, d).log ==
      if !Reloads(s, url, d) then s.log
      else if PathOf(s, d) in s.watchedPaths then s.log + [AudioLoad(d)]
      else s.log + [AudioLoad(d)] + [WatcherWatch(PathOf(s, d))]
  {
  }

  /** setPath never plays a widget. */
  lemma SetPathPlaysNothing(s: State, url: string -> string, d: DocId, e: DocId)
    requires WellFormed(s, d) ==> d in s.sessions
    ensures Count(SetPathStep(s, url, d).log, AudioPlay(e)) == Count(s.log, AudioPlay(e))
  {
    SetPathLog(s, url, d);
    if Reloads(s, url, d) {
      CountAppend(s.log, AudioLoad(d), AudioPlay(e));
      if PathOf(s, d) !in s.watchedPaths {
        CountAppend(s.log + [AudioLoad(d)], WatcherWatch(PathOf(s, d)), AudioPlay(e));
      }
    }
  }

  /** setPath changes no session but the document's, and that one only by a reload; it touches no pane. */
  lemma SetPathSessions(s: State, url: string -> string, d: DocId)
    requires WellFormed(s, d) ==> d in s.sessions
    ensures var r := SetPathStep(s, url, d);
      && r.panes == s.panes && r.drawn == s.drawn
      && r.sessions == if Reloads(s, url, d) then s.sessions[d := Reload(s.sessions[d], ResolveUrl(PathOf(s, d), url))] else s.sessions
  {
  }

  /** A second setPath on the same document changes nothing: the widget already has the URL. */
  lemma SetPathIdempotent(s: State, url: string -> string, d: DocId)
    requires WellFormed(s, d) ==> d in s.sessions
    ensures SetPathStep(SetPathStep(s, url, d), url, d) == SetPathStep(s, url, d)
  {
  }

  /**
   * setPath with the registration moved in front of the URL comparison, so
   * that a well-formed document's path is registered after every call, also
   * when the widget already has the URL (see Scenarios.MovedTabIsNotWatched).
   */
  function SetPathWatchingStep(s: State, url: string -> string, d: DocId): State
    requires WellFormed(s, d) ==> d in s.sessions
  {
    if !WellFormed(s, d) then s
    else
      var tab := s.docs[d].tab.value;
      var path := tab.path.value;
      var watched :=
        if path in s.watchedPaths then s
        else s.(log := s.log + [WatcherWatch(path)], watchedPaths := s.watchedPaths[path := tab.id]);
      var session := s.sessions[d];
      var fullPath := ResolveUrl(path, url);
      if session.widget.src == fullPath then watched
      else watched.(
        sessions := s.sessions[d := Reload(session, fullPath)],
        log := watched.log + [AudioLoad(d)],
        docs := s.docs[d := s.docs[d].(title := Some(Basename(path)), tooltip := Some(path))])
  }

  lemma SetPathWatchingKeepsInvariant(s: State, url: string -> string, d: DocId)
    requires Inv(s) && (WellFormed(s, d) ==> d in s.sessions)
    ensures Inv(SetPathWatchingStep(s, url, d))
    ensures ActiveShown(s) ==> ActiveShown(SetPathWatchingStep(s, url, d))
  {
    if WellFormed(s, d) {
      var path, session := PathOf(s, d), s.sessions[d];
      var watched := s;
      if path !in s.watchedPaths {
        WatchBalancedAfterWatch(s.log, s.watchedPaths, path, s.docs[d].tab.value.id);
        CssOnceAfter(s.log, s.drawn, WatcherWatch(path));
        watched := s.(log := s.log + [WatcherWatch(path)], watchedPaths := s.watchedPaths[path := s.docs[d].tab.value.id]);
      }
      if Reloads(s, url, d) {
        LayoutAfterEdit(s.panes, s.sessions, d, Reload(session, ResolveUrl(path, url)));
        LogInvAfterOther(watched, AudioLoad(d));
      }
    }
  }

  /**
   * The corrected setPath leaves a well-formed document's path registered,
   * and otherwise does what setPath does.
   */
  lemma SetPathWatchingRegisters(s: State, url: string -> string, d: DocId)
    requires WellFormed(s, d) ==> d in s.sessions
    ensures var r, r0 := SetPathWatchingStep(s, url, d), SetPathStep(s, url, d);
      && (WellFormed(s, d) ==> PathOf(s, d) in r.watchedPaths)
      && r.sessions == r0.sessions && r.docs == r0.docs && r.panes == r0.panes && r.drawn == r0.drawn
      && (Reloads(s, url, d) ==> r.watchedPaths == r0.watchedPaths)
      && (WellFormed(s, d) ==>
            r.log == s.log + (if PathOf(s, d) in s.watchedPaths then [] else [WatcherWatch(PathOf(s, d))])
                           + (if Reloads(s, url, d) then [AudioLoad(d)] else []))
      && (!WellFormed(s, d) ==> r == s)
  {
  }

  /**
   * unwatch (audioplayer.js:91-100): forget a registered path and tell the
   * watcher; a non-string or unregistered path changes nothing.
   */
  function UnwatchStep(s: State, path: Option<string>): State {
    if path.Some? && path.value in s.watchedPaths then
      s.(log := s.log + [WatcherUnwatch(path.value)], watchedPaths := s.watchedPaths - {path.value})
    else s
  }

  lemma UnwatchKeepsInvariant(s: State, path: Option<string>)
    requires Inv(s)
    ensures Inv(UnwatchStep(s, path))
  {
    if path.Some? && path.value in s.watchedPaths {
      WatchBalancedAfterUnwatch(s.log, s.watchedPaths, path.value);
      CssOnceAfter(s.log, s.drawn, WatcherUnwatch(path.value));
    }
  }

  /**
   * unwatch(path) removes the path's registration and no other, tells the
   * watcher once for a registered path and otherwise calls nothing, and
   * changes nothing else; afterwards the watcher has been told to unwatch
   * the path as often as to watch it, and a second unwatch changes nothing.
   * A non-string path is ignored.
   */
  lemma UnwatchForgets(s: State, path: string)
    requires Inv(s)
    ensures var r := UnwatchStep(s, Some(path));
      && r.watchedPaths == s.watchedPaths - {path}
      && r.log == s.log + (if path in s.watchedPaths then [WatcherUnwatch(path)] else [])
      && r.drawn == s.drawn && r.panes == s.panes && r.sessions == s.sessions && r.docs == s.docs
      && Count(r.log, WatcherWatch(path)) == Count(r.log, WatcherUnwatch(path))
      && UnwatchStep(r, Some(path)) == r
      && (path !in s.watchedPaths <==> r == s)
    ensures UnwatchStep(s, None) == s
  {
    if path in s.watchedPaths {
      WatchBalancedAfterUnwatch(s.log, s.watchedPaths, path);
      assert |UnwatchStep(s, Some(path)).log| > |s.log|;
    } else {
      assert s.watchedPaths - {path} == s.watchedPaths;
    }
  }

  // ---------------------------------------------------------------------------
  // draw, documentLoad and setTabBackground

  /**
   * The draw handler (audioplayer.js:103-119), fired once per editor
   * instance: give the pane an empty container, and insert the CSS if no
   * pane has been drawn before.
   */
  function DrawStep(s: State, pane: PaneId): State
    requires pane !in s.panes
  {
    var withContainer := s.(panes := s.panes[pane := Pane(None)]);
    if s.drawn then withContainer
    else withContainer.(drawn := true, log := s.log + [InsertCss])
  }

  /** After any number of draws the CSS has been inserted exactly once, and the new container is empty. */
  lemma DrawInsertsCssOnce(s: State, pane: PaneId)
    requires Inv(s) && pane !in s.panes
    ensures var r := DrawStep(s, pane);
      && Inv(r) && (ActiveShown(s) ==> ActiveShown(r))
      && r.drawn && Count(r.log, InsertCss) == 1
      && r.panes == s.panes[pane := Pane(None)]
      && forall d :: d in r.sessions ==> r.sessions[d].widget.parent != Some(pane)
  {
    if !s.drawn {
      CssOnceAfter(s.log, s.drawn, InsertCss);
      WatchBalancedAfterOther(s.log, s.watchedPaths, InsertCss);
    }
  }

  /**
   * setTabBackground (audioplayer.js:174-188) on the document's tab; Restyle
   * leaves the tab as it is for a malformed event.
   */
  function SetTabBackgroundStep(s: State, d: DocId, e: ThemeEvent): State
    requires d in s.docs && s.docs[d].tab.Some?
  {
    var tab := s.docs[d].tab.value;
    s.(docs := s.docs[d := s.docs[d].(tab := Some(tab.(style := Restyle(tab.style, e))))])
  }

  /**
   * setTabBackground, run on a theme change, restyles the document's tab and
   * nothing else: no session, pane, registration or call changes, and the
   * tab keeps its id and path and the document its title and tooltip.
   */
  lemma ThemeChangeOnlyRestyles(s: State, d: DocId, e: ThemeEvent)
    requires d in s.docs && s.docs[d].tab.Some?
    ensures var r, doc := SetTabBackgroundStep(s, d, e), s.docs[d];
      && r.drawn == s.drawn && r.watchedPaths == s.watchedPaths && r.panes == s.panes
      && r.sessions == s.sessions && r.log == s.log
      && r.docs.Keys == s.docs.Keys
      && (forall other :: other in s.docs && other != d ==> r.docs[other] == s.docs[other])
      && r.docs[d].title == doc.title && r.docs[d].tooltip == doc.tooltip && r.docs[d].tab.Some?
      && r.docs[d].tab.value.id == doc.tab.value.id && r.docs[d].tab.value.path == doc.tab.value.path
      && r.docs[d].tab.value.style == Restyle(doc.tab.value.style, e)
      && (Inv(s) ==> Inv(r)) && (ActiveShown(s) ==> ActiveShown(r))
  {
  }

  /** Of a run of theme changes on a tab, the latest well-formed one decides its style. */
  lemma LatestThemeChangeWins(s: State, d: DocId, earlier: ThemeEvent, theme: string)
    requires d in s.docs && s.docs[d].tab.Some?
    ensures SetTabBackgroundStep(SetTabBackgroundStep(s, d, earlier), d, ThemeNamed(theme)) == SetTabBackgroundStep(s, d, ThemeNamed(theme))
  {
    LatestThemeWins(s.docs[d].tab.value.style, earlier, theme);
  }

  /** The event object setTabBackground receives on load: `{ theme: settings.get(...) }`. */
  function SkinEvent(skin: Option<string>): ThemeEvent {
    if skin.Some? then ThemeNamed(skin.value) else NoStringTheme
  }

  /**
   * The documentLoad handler (audioplayer.js:122-195): the first load of a
   * document creates its widget and styles its tab for the current theme
   * `skin`; a later load of the same document changes nothing.
   */
  function DocumentLoadStep(s: State, d: DocId, skin: Option<string>): State
    requires d in s.docs && s.docs[d].tab.Some?
  {
    if d in s.sessions then s
    else SetTabBackgroundStep(s.(sessions := s.sessions[d := Session(NewWidget(), Unset)]), d, SkinEvent(skin))
  }

  lemma DocumentLoadKeepsInvariant(s: State, d: DocId, skin: Option<string>)
    requires Inv(s) && d in s.docs && s.docs[d].tab.Some?
    ensures Inv(DocumentLoadStep(s, d, skin))
    ensures ActiveShown(s) ==> ActiveShown(DocumentLoadStep(s, d, skin))
  {
    if d !in s.sessions {
      LayoutAfterEdit(s.panes, s.sessions, d, Session(NewWidget(), Unset));
    }
  }

  /**
   * The first load gives the document a fresh, detached, paused widget with
   * no remembered play state, styles its tab for the current theme and calls
   * no collaborator; loading again (the tab moved to another pane) changes
   * nothing, whatever the theme is by then.
   */
  lemma DocumentLoadOnce(s: State, d: DocId, skin: Option<string>, laterSkin: Option<string>)
    requires d in s.docs && s.docs[d].tab.Some?
    ensures var r := DocumentLoadStep(s, d, skin);
      && DocumentLoadStep(r, d, laterSkin) == r
      && d in r.sessions && r.log == s.log && r.watchedPaths == s.watchedPaths && r.panes == s.panes
      && (d !in s.sessions ==>
            && r.sessions == s.sessions[d := Session(Widget("", true, Default, None), Unset)]
            && r.docs[d].tab.Some?
            && (skin.Some? ==> r.docs[d].tab.value.style == TabStyle(BackgroundFor(skin.value), skin.value == "dark"))
            && (skin.None? ==> r.docs[d] == s.docs[d]))
      && (d in s.sessions ==> r == s)
  {
  }

  // ---------------------------------------------------------------------------
  // The widget's listeners and the watcher's delete listener

  /** The widget's `playing` (Playing) and `pause` (Paused) listeners (audioplayer.js:139-144). */
  function RememberStep(s: State, d: DocId, flag: PauseFlag): State
    requires d in s.sessions
  {
    s.(sessions := s.sessions[d := s.sessions[d].(paused := flag)])
  }

  lemma RememberKeepsInvariant(s: State, d: DocId, flag: PauseFlag)
    requires Inv(s) && d in s.sessions
    ensures Inv(RememberStep(s, d, flag))
    ensures ActiveShown(s) ==> ActiveShown(RememberStep(s, d, flag))
  {
    LayoutAfterEdit(s.panes, s.sessions, d, s.sessions[d].(paused := flag));
  }

  /**
   * One run of the watcher's `delete` listener (audioplayer.js:151-165): for
   * a registered path, unwatch it and raise an alert whose acknowledgment
   * closes the tab registered for the path.
   */
  function DeleteStep(s: State, path: string): State {
    if path !in s.watchedPaths then s
    else
      var tab := s.watchedPaths[path];
      var u := UnwatchStep(s, Some(path));
      u.(log := u.log + [ShowAlert(path, tab)])
  }

  lemma DeleteKeepsInvariant(s: State, path: string)
    requires Inv(s)
    ensures Inv(DeleteStep(s, path))
    ensures ActiveShown(s) ==> ActiveShown(DeleteStep(s, path))
  {
    UnwatchKeepsInvariant(s, Some(path));
    if path in s.watchedPaths {
      LogInvAfterOther(UnwatchStep(s, Some(path)), ShowAlert(path, s.watchedPaths[path]));
    }
  }

  /**
   * Every documentLoad adds a delete listener and none is removed, so a
   * deletion runs the listener once per document ever loaded.
   */
  function DeleteByListeners(s: State, path: string, listeners: nat): State
    decreases listeners
  {
    if listeners == 0 then s else DeleteByListeners(DeleteStep(s, path), path, listeners - 1)
  }

  /**
   * However many listeners run, a deleted registered file raises exactly one
   * alert, closing the tab registered for it, and its path ends up
   * unregistered; an unregistered path raises none.
   */
  lemma {:induction false} OneAlertPerDeletion(s: State, path: string, listeners: nat)
    requires listeners >= 1
    ensures var r := DeleteByListeners(s, path, listeners);
      && r == DeleteStep(s, path)
      && path !in r.watchedPaths
      && (path in s.watchedPaths ==>
            Count(r.log, ShowAlert(path, s.watchedPaths[path])) == Count(s.log, ShowAlert(path, s.watchedPaths[path])) + 1)
      && (path !in s.watchedPaths ==> r == s)
    decreases listeners
  {
    if listeners > 1 {
      OneAlertPerDeletion(DeleteStep(s, path), path, listeners - 1);
    }
    if path in s.watchedPaths {
      var alert := ShowAlert(path, s.watchedPaths[path]);
      CountAppend(s.log, WatcherUnwatch(path), alert);
      CountAppend(s.log + [WatcherUnwatch(path)], alert, alert);
    }
  }

  // ---------------------------------------------------------------------------
  // documentActivate and documentUnload

  /**
   * The documentUnload handler (audioplayer.js:226-234): take the widget out
   * of this pane's container, then unwatch the tab's path. `removeChild`
   * throws unless the widget hangs in this pane's container.
   */
  function UnloadStep(s: State, pane: PaneId, d: DocId): State
    requires d in s.sessions && s.sessions[d].widget.parent == Some(pane)
    requires d in s.docs && s.docs[d].tab.Some?
  {
    var session := s.sessions[d];
    var detached := s.(sessions := s.sessions[d := session.(widget := session.widget.(parent := None))]);
    UnwatchStep(detached, s.docs[d].tab.value.path)
  }

  /** Taking a widget out of its container keeps the layout. */
  lemma LayoutAfterDetach(panes: map<PaneId, Pane>, sessions: map<DocId, Session>, d: DocId)
    requires Layout(panes, sessions) && d in sessions
    ensures var s := sessions[d].(widget := sessions[d].widget.(parent := None));
      && Layout(panes, sessions[d := s])
      && (ActiveShownIn(panes, sessions) ==> ActiveShownIn(panes, sessions[d := s]))
  {
  }

  lemma UnloadKeepsInvariant(s: State, pane: PaneId, d: DocId)
    requires Inv(s) && d in s.sessions && s.sessions[d].widget.parent == Some(pane)
    requires d in s.docs && s.docs[d].tab.Some?
    ensures Inv(UnloadStep(s, pane, d))
    ensures ActiveShown(s) ==> ActiveShown(UnloadStep(s, pane, d))
  {
    var session := s.sessions[d];
    LayoutAfterDetach(s.panes, s.sessions, d);
    UnwatchKeepsInvariant(s.(sessions := s.sessions[d := session.(widget := session.widget.(parent := None))]), s.docs[d].tab.value.path);
  }

  /**
   * Unloading detaches the widget, removes the registration of the tab's
   * current path and no other, and tells the watcher once if that path was
   * registered; panes, documents and the other sessions stay as they were.
   */
  lemma UnloadDetachesAndForgets(s: State, pane: PaneId, d: DocId)
    requires d in s.sessions && s.sessions[d].widget.parent == Some(pane)
    requires d in s.docs && s.docs[d].tab.Some?
    ensures var r, path := UnloadStep(s, pane, d), s.docs[d].tab.value.path;
      && r.sessions == s.sessions[d := s.sessions[d].(widget := s.sessions[d].widget.(parent := None))]
      && r.watchedPaths == (if path.Some? then s.watchedPaths - {path.value} else s.watchedPaths)
      && r.log == s.log + (if path.Some? && path.value in s.watchedPaths then [WatcherUnwatch(path.value)] else [])
      && r.panes == s.panes && r.docs == s.docs && r.drawn == s.drawn
  {
    var path := s.docs[d].tab.value.path;
    if path.Some? && path.value !in s.watchedPaths {
      assert s.watchedPaths - {path.value} == s.watchedPaths;
    }
  }

  /**
   * A rename from the file tree (audioplayer.js:145-148): the host gives the
   * document's tab the new path (None when it is not a string), and the
   * tab's `setPath` listener, added by documentLoad, runs setPath.
   */
  function RenameStep(s: State, url: string -> string, d: DocId, newPath: Option<string>): State
    requires d in s.docs && s.docs[d].tab.Some? && d in s.sessions
  {
    var tab := s.docs[d].tab.value;
    SetPathStep(s.(docs := s.docs[d := s.docs[d].(tab := Some(tab.(path := newPath)))]), url, d)
  }

  lemma RenameKeepsInvariant(s: State, url: string -> string, d: DocId, newPath: Option<string>)
    requires Inv(s) && d in s.docs && s.docs[d].tab.Some? && d in s.sessions
    ensures Inv(RenameStep(s, url, d, newPath))
    ensures ActiveShown(s) ==> ActiveShown(RenameStep(s, url, d, newPath))
  {
    var tab := s.docs[d].tab.value;
    SetPathKeepsInvariant(s.(docs := s.docs[d := s.docs[d].(tab := Some(tab.(path := newPath)))]), url, d);
  }

  /**
   * Renaming a tab from a registered path p to another path q leaves p
   * registered to the same tab, and registers q when the URL changes; the
   * widget stays where it hangs, and a later documentUnload removes only
   * q's registration, so p's stays behind.
   */
  lemma RenameLeavesOldPathRegistered(s: State, url: string -> string, pane: PaneId, d: DocId, q: string)
    requires d in s.docs && s.docs[d].tab.Some? && d in s.sessions
    requires s.docs[d].tab.value.path.Some? && s.docs[d].tab.value.path.value in s.watchedPaths
    requires q != s.docs[d].tab.value.path.value
    ensures var r, p := RenameStep(s, url, d, Some(q)), s.docs[d].tab.value.path.value;
      && p in r.watchedPaths && r.watchedPaths[p] == s.watchedPaths[p]
      && (s.sessions[d].widget.src != ResolveUrl(q, url) ==> q in r.watchedPaths)
      && d in r.docs && r.docs[d].tab.Some? && r.docs[d].tab.value.path == Some(q)
      && d in r.sessions && r.sessions[d].widget.parent == s.sessions[d].widget.parent
      && (s.sessions[d].widget.parent == Some(pane) ==>
            var u := UnloadStep(r, pane, d);
            u.watchedPaths == r.watchedPaths - {q} && p in u.watchedPaths)
  {
  }

  /** The state documentActivate needs: a drawn pane, a loaded document, and a current session with a widget. */
  predicate CanActivate(s: State, pane: PaneId, d: DocId) {
    pane in s.panes && d in s.sessions &&
    (s.panes[pane].current.Some? ==> s.panes[pane].current.value in s.sessions)
  }

  /**
   * documentActivate's first steps (audioplayer.js:201-213): the pane's
   * previous session, if another one, is hidden (when `guarded`, only while
   * its widget hangs in this pane's container); the document becomes the
   * pane's current session, and its widget is attached to the container and
   * shown.
   */
  function SwitchStep(s: State, pane: PaneId, d: DocId, guarded: bool): State
    requires CanActivate(s, pane, d)
  {
    var previous := s.panes[pane].current;
    var hidden :=
      if previous.Some? && previous.value != d && (!guarded || s.sessions[previous.value].widget.parent == Some(pane))
      then s.sessions[previous.value := Hide(s.sessions[previous.value])]
      else s.sessions;
    var w := hidden[d].widget;
    s.(panes := s.panes[pane := Pane(Some(d))], sessions := hidden[d := hidden[d].(widget := w.(parent := Some(pane), display := Shown))])
  }

  /** Activation keeps the layout: the activated widget is the only one shown in the pane's container. */
  lemma SwitchKeepsInvariant(s: State, pane: PaneId, d: DocId, guarded: bool)
    requires Inv(s) && CanActivate(s, pane, d)
    ensures Inv(SwitchStep(s, pane, d, guarded))
    ensures guarded && ActiveShown(s) ==> ActiveShown(SwitchStep(s, pane, d, guarded))
  {
    var r := SwitchStep(s, pane, d, guarded);
    forall e | e in r.sessions && Showing(r.sessions[e].widget)
      ensures r.panes[r.sessions[e].widget.parent.value].current == Some(e)
    {
      if e != d {
        // e was shown already, and not in this pane's container: that one showed the previous session, now hidden
        assert Showing(s.sessions[e].widget);
      }
    }
  }

  /**
   * The last step of documentActivate (audioplayer.js:220-222): play the
   * widget if the session was last seen playing but the element is paused.
   */
  function ResumeStep(s: State, d: DocId): State
    requires d in s.sessions
  {
    var session := s.sessions[d];
    if session.paused == Playing && session.widget.nativePaused then
      s.(sessions := s.sessions[d := session.(widget := session.widget.(nativePaused := false))], log := s.log + [AudioPlay(d)])
    else s
  }

  lemma ResumeKeepsInvariant(s: State, d: DocId)
    requires Inv(s) && d in s.sessions
    ensures Inv(ResumeStep(s, d))
    ensures ActiveShown(s) ==> ActiveShown(ResumeStep(s, d))
  {
    var session := s.sessions[d];
    if session.paused == Playing && session.widget.nativePaused {
      LayoutAfterEdit(s.panes, s.sessions, d, session.(widget := session.widget.(nativePaused := false)));
      LogInvAfterOther(s, AudioPlay(d));
    }
  }

  /** The documentActivate handler as written (audioplayer.js:198-223). */
  function ActivateStep(s: State, url: string -> string, pane: PaneId, d: DocId): State
    requires CanActivate(s, pane, d)
  {
    var switched := SwitchStep(s, pane, d, false);
    ResumeStep(SetPathStep(switched, url, d), d)
  }

  /** documentActivate with the hiding confined to this pane's container and the corrected setPath. */
  function ActivateGuardedStep(s: State, url: string -> string, pane: PaneId, d: DocId): State
    requires CanActivate(s, pane, d)
  {
    var switched := SwitchStep(s, pane, d, true);
    ResumeStep(SetPathWatchingStep(switched, url, d), d)
  }

  lemma ActivateKeepsInvariant(s: State, url: string -> string, pane: PaneId, d: DocId)
    requires Inv(s) && CanActivate(s, pane, d)
    ensures Inv(ActivateStep(s, url, pane, d))
  {
    var switched := SwitchStep(s, pane, d, false);
    SwitchKeepsInvariant(s, pane, d, false);
    SetPathKeepsInvariant(switched, url, d);
    ResumeKeepsInvariant(SetPathStep(switched, url, d), d);
  }

  /** The corrected activation keeps the invariant and keeps every container showing its current session. */
  lemma ActivateGuardedKeepsActiveShown(s: State, url: string -> string, pane: PaneId, d: DocId)
    requires Inv(s) && CanActivate(s, pane, d)
    ensures Inv(ActivateGuardedStep(s, url, pane, d))
    ensures ActiveShown(s) ==> ActiveShown(ActivateGuardedStep(s, url, pane, d))
    ensures WellFormed(s, d) ==> PathOf(s, d) in ActivateGuardedStep(s, url, pane, d).watchedPaths
  {
    var switched := SwitchStep(s, pane, d, true);
    SwitchKeepsInvariant(s, pane, d, true);
    SetPathWatchingKeepsInvariant(switched, url, d);
    SetPathWatchingRegisters(switched, url, d);
    ResumeKeepsInvariant(SetPathWatchingStep(switched, url, d), d);
  }

  /**
   * After documentActivate the document is the pane's current session, its
   * widget hangs in the pane's container and is shown, and the pane's
   * previous session, if another one, is hidden; no other session changes.
   */
  lemma ActivateShows(s: State, url: string -> string, pane: PaneId, d: DocId)
    requires CanActivate(s, pane, d)
    ensures var r := ActivateStep(s, url, pane, d);
      && r.panes == s.panes[pane := Pane(Some(d))]
      && r.sessions.Keys == s.sessions.Keys
      && r.sessions[d].widget.parent == Some(pane) && r.sessions[d].widget.display == Shown
      && r.sessions[d].paused == s.sessions[d].paused
      && forall e :: e in s.sessions && e != d ==>
           r.sessions[e] == (if s.panes[pane].current == Some(e) then Hide(s.sessions[e]) else s.sessions[e])
  {
    SetPathSessions(SwitchStep(s, pane, d, false), url, d);
  }

  /**
   * documentActivate plays the widget exactly when the session was last seen
   * playing and the element is paused once setPath is done (it was paused
   * already, or setPath reloaded it); afterwards a playing session's element
   * is not paused.
   */
  lemma ActivatePlaysIff(s: State, url: string -> string, pane: PaneId, d: DocId)
    requires CanActivate(s, pane, d)
    ensures var r, before := ActivateStep(s, url, pane, d), s.sessions[d];
      var plays := before.paused == Playing && (Reloads(s, url, d) || before.widget.nativePaused);
      && Count(r.log, AudioPlay(d)) == Count(s.log, AudioPlay(d)) + (if plays then 1 else 0)
      && (before.paused == Playing ==> !r.sessions[d].widget.nativePaused)
      && (before.paused != Playing ==> r.sessions[d].widget.nativePaused == (Reloads(s, url, d) || before.widget.nativePaused))
  {
    var switched := SwitchStep(s, pane, d, false);
    assert Reloads(switched, url, d) == Reloads(s, url, d);
    SetPathSessions(switched, url, d);
    SetPathPlaysNothing(switched, url, d, d);
    CountAppend(SetPathStep(switched, url, d).log, AudioPlay(d), AudioPlay(d));
  }

  // ---------------------------------------------------------------------------
  // The controller: the same handlers, updating fields in place

  class Controller {
    /** `vfs.url`, the path-to-URL resolver. */
    const url: string -> string

    var drawn: bool
    var watchedPaths: map<string, TabId>
    /** The drawn editor instances; a pane is here once its draw handler has made its container. */
    var panes: map<PaneId, Pane>
    var sessions: map<DocId, Session>
    var docs: map<DocId, Doc>
    var log: seq<Effect>

    /** The fields as one value. */
    function Snapshot(): State
      reads this
    {
      State(drawn, watchedPaths, panes, sessions, docs, log)
    }

    /** A plugin just loaded: nothing drawn, watched or loaded. */
    constructor (url: string -> string, docs: map<DocId, Doc>)
      ensures Inv(Snapshot()) && ActiveShown(Snapshot())
      ensures this.url == url && Snapshot() == State(false, map[], map[], map[], docs, [])
    {
      this.url := url;
      this.docs := docs;
      drawn := false;
      watchedPaths := map[];
      panes := map[];
      sessions := map[];
      log := [];
    }

    /** setPath (audioplayer.js:58-84). */
    method SetPath(d: DocId)
      requires WellFormed(Snapshot(), d) ==> d in sessions
      modifies this
      ensures Snapshot() == SetPathStep(old(Snapshot()), url, d)
    {
      if d !in docs || docs[d].tab.None? || docs[d].tab.value.path.None? {
        return;
      }
      var tab := docs[d].tab.value;
      var path := tab.path.value;
      var session := sessions[d];
      var fullPath := ResolveUrl(path, url);
      if session.widget.src == fullPath {
        return;
      }
      sessions := sessions[d := Reload(session, fullPath)];
      log := log + [AudioLoad(d)];
      docs := docs[d := docs[d].(title := Some(Basename(path)), tooltip := Some(path))];
      if path !in watchedPaths {
        log := log + [WatcherWatch(path)];
        watchedPaths := watchedPaths[path := tab.id];
      }
    }

    /** setPath with the registration ahead of the URL comparison. */
    method SetPathWatching(d: DocId)
      requires WellFormed(Snapshot(), d) ==> d in sessions
      modifies this
      ensures Snapshot() == SetPathWatchingStep(old(Snapshot()), url, d)
    {
      if d !in docs || docs[d].tab.None? || docs[d].tab.value.path.None? {
        return;
      }
      var tab := docs[d].tab.value;
      var path := tab.path.value;
      if path !in watchedPaths {
        log := log + [WatcherWatch(path)];
        watchedPaths := watchedPaths[path := tab.id];
      }
      var session := sessions[d];
      var fullPath := ResolveUrl(path, url);
      if session.widget.src == fullPath {
        return;
      }
      sessions := sessions[d := Reload(session, fullPath)];
      log := log + [AudioLoad(d)];
      docs := docs[d := docs[d].(title := Some(Basename(path)), tooltip := Some(path))];
    }

    /** unwatch (audioplayer.js:91-100). */
    method Unwatch(path: Option<string>)
      modifies this
      ensures Snapshot() == UnwatchStep(old(Snapshot()), path)
    {
      if path.None? {
        return;
      }
      if path.value in watchedPaths {
        log := log + [WatcherUnwatch(path.value)];
        watchedPaths := watchedPaths - {path.value};
      }
    }

    /** The draw handler (audioplayer.js:103-119). */
    method Draw(pane: PaneId)
      requires pane !in panes
      modifies this
      ensures Snapshot() == DrawStep(old(Snapshot()), pane)
    {
      panes := panes[pane := Pane(None)];
      if drawn {
        return;
      }
      drawn := true;
      log := log + [InsertCss];
    }

    /** The documentLoad handler (audioplayer.js:122-195), with `skin` the current theme setting. */
    method DocumentLoad(d: DocId, skin: Option<string>)
      requires d in docs && docs[d].tab.Some?
      modifies this
      ensures Snapshot() == DocumentLoadStep(old(Snapshot()), d, skin)
    {
      if d in sessions {
        return;
      }
      sessions := sessions[d := Session(NewWidget(), Unset)];
      SetTabBackground(d, SkinEvent(skin));
    }

    /** setTabBackground (audioplayer.js:174-188), also run on every theme change. */
    method SetTabBackground(d: DocId, e: ThemeEvent)
      requires d in docs && docs[d].tab.Some?
      modifies this
      ensures Snapshot() == SetTabBackgroundStep(old(Snapshot()), d, e)
    {
      if !e.ThemeNamed? {
        return;
      }
      var tab := docs[d].tab.value;
      docs := docs[d := docs[d].(tab := Some(tab.(style := TabStyle(BackgroundFor(e.theme), e.theme == "dark"))))];
    }

    /** The widget's `playing` listener (audioplayer.js:139-141). */
    method OnPlaying(d: DocId)
      requires d in sessions
      modifies this
      ensures Snapshot() == RememberStep(old(Snapshot()), d, Playing)
    {
      sessions := sessions[d := sessions[d].(paused := Playing)];
    }

    /** The widget's `pause` listener (audioplayer.js:142-144). */
    method OnPause(d: DocId)
      requires d in sessions
      modifies this
      ensures Snapshot() == RememberStep(old(Snapshot()), d, Paused)
    {
      sessions := sessions[d := sessions[d].(paused := Paused)];
    }

    /** One run of the watcher's `delete` listener (audioplayer.js:151-165). */
    method OnDelete(path: string)
      modifies this
      ensures Snapshot() == DeleteStep(old(Snapshot()), path)
    {
      if path !in watchedPaths {
        return;
      }
      var tab := watchedPaths[path];
      Unwatch(Some(path));
      log := log + [ShowAlert(path, tab)];
    }

    /** The documentUnload handler (audioplayer.js:226-234). */
    method DocumentUnload(pane: PaneId, d: DocId)
      requires d in sessions && sessions[d].widget.parent == Some(pane)
      requires d in docs && docs[d].tab.Some?
      modifies this
      ensures Snapshot() == UnloadStep(old(Snapshot()), pane, d)
    {
      var widget := sessions[d].widget;
      sessions := sessions[d := sessions[d].(widget := widget.(parent := None))];
      Unwatch(docs[d].tab.value.path);
    }

    /** A rename from the file tree, then the tab's `setPath` listener (audioplayer.js:145-148). */
    method Rename(d: DocId, newPath: Option<string>)
      requires d in docs && docs[d].tab.Some? && d in sessions
      modifies this
      ensures Snapshot() == RenameStep(old(Snapshot()), url, d, newPath)
    {
      var tab := docs[d].tab.value;
      docs := docs[d := docs[d].(tab := Some(tab.(path := newPath)))];
      SetPath(d);
    }

    /** The first steps of documentActivate, shared by both versions. */
    method Switch(pane: PaneId, d: DocId, guarded: bool)
      requires CanActivate(Snapshot(), pane, d)
      modifies this
      ensures Snapshot() == SwitchStep(old(Snapshot()), pane, d, guarded)
    {
      var previous := panes[pane].current;
      if previous.Some? && previous.value != d && (!guarded || sessions[previous.value].widget.parent == Some(pane)) {
        sessions := sessions[previous.value := Hide(sessions[previous.value])];
      }
      panes := panes[pane := Pane(Some(d))];
      if sessions[d].widget.parent != Some(pane) {
        sessions := sessions[d := sessions[d].(widget := sessions[d].widget.(parent := Some(pane)))];
      }
      sessions := sessions[d := sessions[d].(widget := sessions[d].widget.(display := Shown))];
    }

    /** The documentActivate handler as written (audioplayer.js:198-223). */
    method DocumentActivate(pane: PaneId, d: DocId)
      requires CanActivate(Snapshot(), pane, d)
      modifies this
      ensures Snapshot() == ActivateStep(old(Snapshot()), url, pane, d)
    {
      Switch(pane, d, false);
      SetPath(d);
      Resume(d);
    }

    /** documentActivate with the hiding confined to this pane's container and the corrected setPath. */
    method DocumentActivateGuarded(pane: PaneId, d: DocId)
      requires CanActivate(Snapshot(), pane, d)
      modifies this
      ensures Snapshot() == ActivateGuardedStep(old(Snapshot()), url, pane, d)
    {
      Switch(pane, d, true);
      SetPathWatching(d);
      Resume(d);
    }

    /** The last step of documentActivate (audioplayer.js:220-222). */
    method Resume(d: DocId)
      requires d in sessions
      modifies this
      ensures Snapshot() == ResumeStep(old(Snapshot()), d)
    {
      var session := sessions[d];
      if session.paused == Playing && session.widget.nativePaused {
        sessions := sessions[d := session.(widget := session.widget.(nativePaused := false))];
        log := log + [AudioPlay(d)];
      }
    }
  }
}
