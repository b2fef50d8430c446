/**
 * Two editor panes and two audio files, A (tab 10) and C (tab 20): song A
 * is opened in pane 0, its tab is moved to pane 1, then song C is opened in
 * pane 0. Each stage is written out as a state, and a lemma shows that one
 * handler takes the previous stage to it. The handlers as written leave
 * pane 1's player hidden and song A's file unwatched; the corrected
 * handlers do neither. The paths, the resolver (`vfs.url`) and the theme
 * are left open: the outcome is the same for all of them.
 */
module Scenarios {
  import opened Wrappers
  import opened Paths
  import opened Themes
  import opened AudioPlayer

  const SongA: DocId := 1
  const SongC: DocId := 2

  /** The open parameters: the resolver, the two files' paths and the theme setting. */
  datatype Demo = Demo(url: string -> string, pathA: string, pathC: string, skin: Option<string>)

  /** Two different files, each resolving to a non-empty URL (a fresh widget's source is empty). */
  predicate Distinct(x: Demo) {
    x.pathA != x.pathC && ResolveUrl(x.pathA, x.url) != "" && ResolveUrl(x.pathC, x.url) != ""
  }

  function UrlA(x: Demo): string { ResolveUrl(x.pathA, x.url) }
  function UrlC(x: Demo): string { ResolveUrl(x.pathC, x.url) }

  /** A song's document: its tab styled for the theme or not yet, its title set by setPath or not yet. */
  function SongDoc(x: Demo, tab: TabId, path: string, styled: bool, titled: bool): Doc {
    var style := if styled then Restyle(TabStyle(None, false), SkinEvent(x.skin)) else TabStyle(None, false);
    Doc(Some(Tab(tab, Some(path), style)), if titled then Some(Basename(path)) else None, if titled then Some(path) else None)
  }

  function Docs(x: Demo, styled: bool, titledA: bool, titledC: bool): map<DocId, Doc> {
    map[SongA := SongDoc(x, 10, x.pathA, styled, titledA), SongC := SongDoc(x, 20, x.pathC, styled, titledC)]
  }

  function Fresh(): Session {
    Session(NewWidget(), Unset)
  }

  function Player(src: string, display: Display, pane: Option<PaneId>): Session {
    Session(Widget(src, true, display, pane), Unset)
  }

  // ---------------------------------------------------------------------------
  // The stages common to both versions

  function Initial(x: Demo): State {
    State(false, map[], map[], map[], Docs(x, false, false, false), [])
  }

  /** Both panes drawn. */
  function Drawn(x: Demo): State {
    State(true, map[], map[0 := Pane(None), 1 := Pane(None)], map[], Docs(x, false, false, false), [InsertCss])
  }

  /** Both songs loaded. */
  function Loaded(x: Demo): State {
    State(true, map[], map[0 := Pane(None), 1 := Pane(None)], map[SongA := Fresh(), SongC := Fresh()],
      Docs(x, true, false, false), [InsertCss])
  }

  lemma ReachDrawn(x: Demo)
    ensures DrawStep(DrawStep(Initial(x), 0), 1) == Drawn(x)
  {
  }

  lemma ReachLoaded(x: Demo)
    ensures DocumentLoadStep(DocumentLoadStep(Drawn(x), SongA, x.skin), SongC, x.skin) == Loaded(x)
  {
  }

  lemma LoadedInv(x: Demo)
    ensures Inv(Loaded(x)) && ActiveShown(Loaded(x))
  {
    ReachDrawn(x);
    ReachLoaded(x);
    assert Inv(Initial(x));
    DrawInsertsCssOnce(Initial(x), 0);
    DrawInsertsCssOnce(DrawStep(Initial(x), 0), 1);
    DocumentLoadKeepsInvariant(Drawn(x), SongA, x.skin);
    DocumentLoadKeepsInvariant(DocumentLoadStep(Drawn(x), SongA, x.skin), SongC, x.skin);
  }

  // ---------------------------------------------------------------------------
  // The handlers as written

  /** Song A activated in pane 0: loaded from its URL, titled, its path watched. */
  function ShownA(x: Demo): State {
    var s := Loaded(x);
    s.(watchedPaths := map[x.pathA := 10],
       panes := s.panes[0 := Pane(Some(SongA))],
       sessions := s.sessions[SongA := Player(UrlA(x), Shown, Some(0))],
       docs := s.docs[SongA := SongDoc(x, 10, x.pathA, true, true)],
       log := s.log + [AudioLoad(SongA)] + [WatcherWatch(x.pathA)])
  }

  /** Song A's tab taken out of pane 0: the widget detached, the path unwatched. */
  function UnloadedA(x: Demo): State {
    var s := ShownA(x);
    s.(watchedPaths := map[],
       sessions := s.sessions[SongA := Player(UrlA(x), Shown, None)],
       log := s.log + [WatcherUnwatch(x.pathA)])
  }

  /** Song A's tab activated in pane 1: the widget moves there, and setPath returns early. */
  function Moved(x: Demo): State {
    var s := UnloadedA(x);
    s.(panes := s.panes[1 := Pane(Some(SongA))],
       sessions := s.sessions[SongA := Player(UrlA(x), Shown, Some(1))])
  }

  /** Song C activated in pane 0: song A's widget, in pane 1's container, is hidden. */
  function OpenedC(x: Demo): State {
    var s := Moved(x);
    s.(watchedPaths := s.watchedPaths[x.pathC := 20],
       panes := s.panes[0 := Pane(Some(SongC))],
       sessions := s.sessions[SongA := Player(UrlA(x), Hidden, Some(1))][SongC := Player(UrlC(x), Shown, Some(0))],
       docs := s.docs[SongC := SongDoc(x, 20, x.pathC, true, true)],
       log := s.log + [AudioLoad(SongC)] + [WatcherWatch(x.pathC)])
  }

  lemma ReachShownA(x: Demo)
    requires Distinct(x)
    ensures ActivateStep(Loaded(x), x.url, 0, SongA) == ShownA(x)
  {
  }

  lemma ReachUnloadedA(x: Demo)
    ensures UnloadStep(ShownA(x), 0, SongA) == UnloadedA(x)
  {
  }

  lemma ReachMoved(x: Demo)
    ensures ActivateStep(UnloadedA(x), x.url, 1, SongA) == Moved(x)
  {
  }

  lemma ReachOpenedC(x: Demo)
    requires Distinct(x)
    ensures ActivateStep(Moved(x), x.url, 0, SongC) == OpenedC(x)
  {
  }

  lemma MovedInv(x: Demo)
    requires Distinct(x)
    ensures Inv(Moved(x))
  {
    LoadedInv(x);
    ReachShownA(x);
    ActivateKeepsInvariant(Loaded(x), x.url, 0, SongA);
    ReachUnloadedA(x);
    UnloadKeepsInvariant(ShownA(x), 0, SongA);
    ReachMoved(x);
    ActivateKeepsInvariant(UnloadedA(x), x.url, 1, SongA);
  }

  /**
   * The move reaches Moved: song A shown in pane 0, unloaded from it, and
   * activated in pane 1. There pane 1 shows song A, whose path is no longer
   * watched: documentUnload unwatched it, and setPath returned early because
   * the widget already had the URL.
   * Deleting the file then raises no alert and closes nothing.
   */
  lemma MovedTabIsNotWatched(x: Demo)
    requires Distinct(x)
    ensures ActivateStep(Loaded(x), x.url, 0, SongA) == ShownA(x)
    ensures UnloadStep(ShownA(x), 0, SongA) == UnloadedA(x)
    ensures ActivateStep(UnloadedA(x), x.url, 1, SongA) == Moved(x)
    ensures Inv(Moved(x)) && ActiveShown(Moved(x))
    ensures Moved(x).panes[1].current == Some(SongA)
    ensures Moved(x).sessions[SongA].widget == Widget(UrlA(x), true, Shown, Some(1))
    ensures Moved(x).watchedPaths == map[]
    ensures DeleteStep(Moved(x), x.pathA) == Moved(x)
  {
    ReachShownA(x);
    ReachUnloadedA(x);
    ReachMoved(x);
    MovedInv(x);
  }

  /**
   * Opening song C in pane 0 after the move hides song A's widget, although
   * it hangs in pane 1's container as that pane's current session: pane 0
   * still names song A as its current session, and documentActivate hides
   * it without checking where its widget hangs.
   */
  lemma MoveThenOpenHidesMovedWidget(x: Demo)
    requires Distinct(x)
    ensures ActivateStep(Moved(x), x.url, 0, SongC) == OpenedC(x)
    ensures Inv(OpenedC(x)) && !ActiveShown(OpenedC(x))
    ensures OpenedC(x).panes[1].current == Some(SongA)
    ensures OpenedC(x).sessions[SongA].widget == Widget(UrlA(x), true, Hidden, Some(1))
  {
    MovedInv(x);
    ReachOpenedC(x);
    ActivateKeepsInvariant(Moved(x), x.url, 0, SongC);
  }

  // ---------------------------------------------------------------------------
  // The corrected handlers

  /** Song A activated in pane 0: as before, but the path is registered before the reload. */
  function ShownAGuarded(x: Demo): State {
    var s := Loaded(x);
    s.(watchedPaths := map[x.pathA := 10],
       panes := s.panes[0 := Pane(Some(SongA))],
       sessions := s.sessions[SongA := Player(UrlA(x), Shown, Some(0))],
       docs := s.docs[SongA := SongDoc(x, 10, x.pathA, true, true)],
       log := s.log + [WatcherWatch(x.pathA)] + [AudioLoad(SongA)])
  }

  function UnloadedAGuarded(x: Demo): State {
    var s := ShownAGuarded(x);
    s.(watchedPaths := map[],
       sessions := s.sessions[SongA := Player(UrlA(x), Shown, None)],
       log := s.log + [WatcherUnwatch(x.pathA)])
  }

  /** After the move the corrected setPath has registered song A's path again. */
  function MovedGuarded(x: Demo): State {
    var s := UnloadedAGuarded(x);
    s.(watchedPaths := map[x.pathA := 10],
       panes := s.panes[1 := Pane(Some(SongA))],
       sessions := s.sessions[SongA := Player(UrlA(x), Shown, Some(1))],
       log := s.log + [WatcherWatch(x.pathA)])
  }

  /** Song C activated in pane 0 leaves song A's widget in pane 1 shown. */
  function OpenedCGuarded(x: Demo): State {
    var s := MovedGuarded(x);
    s.(watchedPaths := s.watchedPaths[x.pathC := 20],
       panes := s.panes[0 := Pane(Some(SongC))],
       sessions := s.sessions[SongC := Player(UrlC(x), Shown, Some(0))],
       docs := s.docs[SongC := SongDoc(x, 20, x.pathC, true, true)],
       log := s.log + [WatcherWatch(x.pathC)] + [AudioLoad(SongC)])
  }

  lemma ReachShownAGuarded(x: Demo)
    requires Distinct(x)
    ensures ActivateGuardedStep(Loaded(x), x.url, 0, SongA) == ShownAGuarded(x)
  {
  }

  lemma ReachUnloadedAGuarded(x: Demo)
    ensures UnloadStep(ShownAGuarded(x), 0, SongA) == UnloadedAGuarded(x)
  {
  }

  lemma ReachMovedGuarded(x: Demo)
    ensures ActivateGuardedStep(UnloadedAGuarded(x), x.url, 1, SongA) == MovedGuarded(x)
  {
  }

  lemma ReachOpenedCGuarded(x: Demo)
    requires Distinct(x)
    ensures ActivateGuardedStep(MovedGuarded(x), x.url, 0, SongC) == OpenedCGuarded(x)
  {
  }

  lemma MovedGuardedInv(x: Demo)
    requires Distinct(x)
    ensures Inv(MovedGuarded(x)) && ActiveShown(MovedGuarded(x))
  {
    LoadedInv(x);
    ReachShownAGuarded(x);
    ActivateGuardedKeepsActiveShown(Loaded(x), x.url, 0, SongA);
    ReachUnloadedAGuarded(x);
    UnloadKeepsInvariant(ShownAGuarded(x), 0, SongA);
    ReachMovedGuarded(x);
    ActivateGuardedKeepsActiveShown(UnloadedAGuarded(x), x.url, 1, SongA);
  }

  /**
   * The same steps with the corrected handlers: after the move song A's path
   * is watched again, and opening song C in pane 0 leaves pane 1 showing song A.
   */
  lemma MoveThenOpenGuarded(x: Demo)
    requires Distinct(x)
    ensures MovedGuarded(x).watchedPaths == map[x.pathA := 10]
    ensures ActivateGuardedStep(MovedGuarded(x), x.url, 0, SongC) == OpenedCGuarded(x)
    ensures Inv(OpenedCGuarded(x)) && ActiveShown(OpenedCGuarded(x))
    ensures OpenedCGuarded(x).sessions[SongA].widget == Widget(UrlA(x), true, Shown, Some(1))
  {
    MovedGuardedInv(x);
    ReachOpenedCGuarded(x);
    ActivateGuardedKeepsActiveShown(MovedGuarded(x), x.url, 0, SongC);
  }
}
