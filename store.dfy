/**
 * The client-side stores: the selected pull of a report, and the map options, which are
 * mirrored into the browser's local storage under one key as a JSON object of strings.
 */
module Store {
  import opened Wrappers

  /** The report view's state: which pull is selected (pulls are numbered from 1). */
  class ReportStore {
    var selectedPull: int

    constructor()
      ensures selectedPull == 1
    {
      selectedPull := 1;
    }

    method SetSelectedPull(id: int)
      modifies this
      ensures selectedPull == id
    {
      selectedPull := id;
    }
  }

  const DEFAULT_PULL_CONNECTION_LINE_COLOR: string := "#10b981"
  const DEFAULT_INVIS_PULL_CONNECTION_LINE_COLOR: string := "#ef4444"

  /** Keys of the stored JSON object. */
  const VISIBLE_KEY: string := "visible"
  const PULL_CONNECTION_LINES_KEY: string := "renderPullConnectionLines"
  const MAP_CHANGE_LINES_KEY: string := "renderMapChangeLines"
  const POIS_KEY: string := "renderPOIs"
  const PULL_CONNECTION_LINE_COLOR_KEY: string := "pullConnectionLineColor"
  const INVIS_PULL_CONNECTION_LINE_COLOR_KEY: string := "invisPullConnectionLineColor"

  /**
   * The content of the local-storage item: a JSON object of string values, or text that
   * `JSON.parse` rejects.
   */
  datatype StoredEntry = Options(entries: map<string, string>) | Corrupt

  /** The stored key/value pairs; none when the item is absent or unreadable. */
  function Entries(storage: Option<StoredEntry>): map<string, string> {
    match storage
    case Some(Options(e)) => e
    case _ => map[]
  }

  /** The outcome of persisting: the new item, or an exception from `JSON.parse`. */
  datatype PersistOutcome = Stored(storage: Option<StoredEntry>) | Threw

  /**
   * `persistMapOptions`: `Some(v)` stores `v` under `key`; `None` (the drop flag) removes
   * `key`. An object left empty removes the whole item; with no item, a drop does nothing.
   */
  function Persist(storage: Option<StoredEntry>, key: string, value: Option<string>): (r: PersistOutcome)
    ensures r.Threw? <==> storage == Some(Corrupt)
    ensures r.Stored? ==>
      Entries(r.storage) == if value.Some? then Entries(storage)[key := value.value] else Entries(storage) - {key}
    ensures r.Stored? ==> r.storage != Some(Corrupt) && r.storage != Some(Options(map[]))
  {
    match storage
    case Some(Corrupt) => Threw
    case Some(Options(e)) =>
      var next := if value.Some? then e[key := value.value] else e - {key};
      if |next| == 0 then Stored(None) else Stored(Some(Options(next)))
    case None =>
      if value.Some? then
        assert key in map[key := value.value];
        Stored(Some(Options(map[key := value.value])))
      else Stored(None)
  }

  /** Persisting only touches its own key. */
  lemma PersistKeepsOtherKeys(storage: Option<StoredEntry>, key: string, value: Option<string>, other: string)
    requires storage != Some(Corrupt) && other != key
    ensures var after := Entries(Persist(storage, key, value).storage);
      (other in after <==> other in Entries(storage))
      && (other in after ==> after[other] == Entries(storage)[other])
  {
  }

  /** Persisting the same value twice leaves what persisting it once leaves. */
  lemma PersistIdempotent(storage: Option<StoredEntry>, key: string, value: Option<string>)
    requires storage != Some(Corrupt)
    ensures var once := Persist(storage, key, value).storage;
      Persist(once, key, value) == Stored(once)
  {
    var once := Persist(storage, key, value).storage;
    var twice := Persist(once, key, value).storage;
    assert Entries(twice) == Entries(once);
    if once.Some? {
      assert Entries(once) != map[];
    }
  }

  /** The map options that the store holds as values. */
  datatype MapOptions = MapOptions(
    visible: bool,
    renderPullConnectionLines: bool,
    renderMapChangeLines: bool,
    renderPOIs: bool,
    pullConnectionLineColor: string,
    invisPullConnectionLineColor: string)

  function Defaults(): MapOptions {
    MapOptions(false, true, true, true, DEFAULT_PULL_CONNECTION_LINE_COLOR, DEFAULT_INVIS_PULL_CONNECTION_LINE_COLOR)
  }

  /** JavaScript truthiness of a restored value, after `"0"` has been replaced by `false`. */
  predicate Truthy(v: string) {
    v != "" && v != "0"
  }

  /** A flag restored from `e`, or kept when `e` lacks its key. */
  function RestoredFlag(flag: bool, e: map<string, string>, key: string): bool {
    if key in e then Truthy(e[key]) else flag
  }

  /** A colour restored verbatim from `e`, or kept when `e` lacks its key. */
  function RestoredColour(colour: string, e: map<string, string>, key: string): string {
    if key in e then e[key] else colour
  }

  /** `restoreFromLocalStorage`: no item or an unreadable item changes nothing. */
  function RestoreFrom(o: MapOptions, storage: Option<StoredEntry>): (r: MapOptions)
    ensures !(storage.Some? && storage.value.Options?) ==> r == o
    ensures var e := Entries(storage);
      && (r.visible <==> if VISIBLE_KEY in e then Truthy(e[VISIBLE_KEY]) else o.visible)
      && (r.renderPullConnectionLines <==>
            if PULL_CONNECTION_LINES_KEY in e then Truthy(e[PULL_CONNECTION_LINES_KEY]) else o.renderPullConnectionLines)
      && (r.renderMapChangeLines <==>
            if MAP_CHANGE_LINES_KEY in e then Truthy(e[MAP_CHANGE_LINES_KEY]) else o.renderMapChangeLines)
      && (r.renderPOIs <==> if POIS_KEY in e then Truthy(e[POIS_KEY]) else o.renderPOIs)
      && (r.pullConnectionLineColor == if PULL_CONNECTION_LINE_COLOR_KEY in e then e[PULL_CONNECTION_LINE_COLOR_KEY] else o.pullConnectionLineColor)
      && (r.invisPullConnectionLineColor ==
            if INVIS_PULL_CONNECTION_LINE_COLOR_KEY in e then e[INVIS_PULL_CONNECTION_LINE_COLOR_KEY] else o.invisPullConnectionLineColor)
  {
    match storage
    case Some(Options(e)) =>
      MapOptions(
        RestoredFlag(o.visible, e, VISIBLE_KEY),
        RestoredFlag(o.renderPullConnectionLines, e, PULL_CONNECTION_LINES_KEY),
        RestoredFlag(o.renderMapChangeLines, e, MAP_CHANGE_LINES_KEY),
        RestoredFlag(o.renderPOIs, e, POIS_KEY),
        RestoredColour(o.pullConnectionLineColor, e, PULL_CONNECTION_LINE_COLOR_KEY),
        RestoredColour(o.invisPullConnectionLineColor, e, INVIS_PULL_CONNECTION_LINE_COLOR_KEY))
    case _ => o
  }

  /** A flag is persisted as `"0"` while off, and absent while on (its default). */
  predicate FlagInSync(flag: bool, e: map<string, string>, key: string) {
    if key in e then e[key] == "0" && !flag else flag
  }

  /** A colour is persisted while it differs from its default, and absent after a reset. */
  predicate ColourInSync(colour: string, e: map<string, string>, key: string, default: string) {
    colour == if key in e then e[key] else default
  }

  /** The stored item describes exactly the persisted options of `o`. */
  predicate InSync(o: MapOptions, storage: Option<StoredEntry>) {
    var e := Entries(storage);
    && storage != Some(Corrupt)
    && VISIBLE_KEY !in e
    && FlagInSync(o.renderPullConnectionLines, e, PULL_CONNECTION_LINES_KEY)
    && FlagInSync(o.renderMapChangeLines, e, MAP_CHANGE_LINES_KEY)
    && FlagInSync(o.renderPOIs, e, POIS_KEY)
    && ColourInSync(o.pullConnectionLineColor, e, PULL_CONNECTION_LINE_COLOR_KEY, DEFAULT_PULL_CONNECTION_LINE_COLOR)
    && ColourInSync(o.invisPullConnectionLineColor, e, INVIS_PULL_CONNECTION_LINE_COLOR_KEY, DEFAULT_INVIS_PULL_CONNECTION_LINE_COLOR)
  }

  /** Nothing stored describes the defaults. */
  lemma DefaultsInSync()
    ensures InSync(Defaults(), None)
  {
  }

  /**
   * Reloading the page restores what was persisted: fresh defaults restored from an
   * item in sync with `o` give back `o`, with the options panel closed.
   */
  lemma ReloadRestores(o: MapOptions, storage: Option<StoredEntry>)
    requires InSync(o, storage)
    ensures RestoreFrom(Defaults(), storage) == o.(visible := false)
  {
  }

  /** Restoring twice restores what restoring once does. */
  lemma RestoreIdempotent(o: MapOptions, storage: Option<StoredEntry>)
    ensures RestoreFrom(RestoreFrom(o, storage), storage) == RestoreFrom(o, storage)
  {
  }

  /** The map options with the local-storage item they are mirrored into. */
  class MapOptionsStore {
    var visible: bool
    var renderPullConnectionLines: bool
    var renderMapChangeLines: bool
    var renderPOIs: bool
    var pullConnectionLineColor: string
    var invisPullConnectionLineColor: string
    /** The local-storage item "mapOptions", shared with earlier page loads. */
    var storage: Option<StoredEntry>

    function Snapshot(): MapOptions
      reads this
    {
      MapOptions(visible, renderPullConnectionLines, renderMapChangeLines, renderPOIs,
        pullConnectionLineColor, invisPullConnectionLineColor)
    }

    constructor(storage: Option<StoredEntry>)
      ensures Snapshot() == Defaults() && this.storage == storage
    {
      visible := false;
      renderPullConnectionLines := true;
      renderMapChangeLines := true;
      renderPOIs := true;
      pullConnectionLineColor := DEFAULT_PULL_CONNECTION_LINE_COLOR;
      invisPullConnectionLineColor := DEFAULT_INVIS_PULL_CONNECTION_LINE_COLOR;
      this.storage := storage;
    }

    /** Opens or closes the options panel; not persisted. */
    method ToggleMapOptions()
      modifies this
      ensures Snapshot() == old(Snapshot()).(visible := !old(visible))
      ensures storage == old(storage)
      ensures InSync(old(Snapshot()), old(storage)) ==> InSync(Snapshot(), storage)
    {
      visible := !visible;
    }

    /**
     * Flips the map-change lines, persisting `"0"` when turning them off and dropping the
     * key when turning them on. An unreadable item throws inside the update: nothing changes.
     */
    method ToggleMapChangeLines() returns (ok: bool)
      modifies this
      ensures ok <==> old(storage) != Some(Corrupt)
      ensures ok ==> Snapshot() == old(Snapshot()).(renderMapChangeLines := !old(renderMapChangeLines))
      ensures ok ==> storage == Persist(old(storage), MAP_CHANGE_LINES_KEY, if old(renderMapChangeLines) then Some("0") else None).storage
      ensures !ok ==> Snapshot() == old(Snapshot()) && storage == old(storage)
      ensures InSync(old(Snapshot()), old(storage)) ==> InSync(Snapshot(), storage)
    {
      var outcome := Persist(storage, MAP_CHANGE_LINES_KEY, if renderMapChangeLines then Some("0") else None);
      if outcome.Threw? {
        return false;
      }
      storage := outcome.storage;
      renderMapChangeLines := !renderMapChangeLines;
      ok := true;
    }

    /** As `ToggleMapChangeLines`, for the points of interest. */
    method TogglePOIs() returns (ok: bool)
      modifies this
      ensures ok <==> old(storage) != Some(Corrupt)
      ensures ok ==> Snapshot() == old(Snapshot()).(renderPOIs := !old(renderPOIs))
      ensures ok ==> storage == Persist(old(storage), POIS_KEY, if old(renderPOIs) then Some("0") else None).storage
      ensures !ok ==> Snapshot() == old(Snapshot()) && storage == old(storage)
      ensures InSync(old(Snapshot()), old(storage)) ==> InSync(Snapshot(), storage)
    {
      var outcome := Persist(storage, POIS_KEY, if renderPOIs then Some("0") else None);
      if outcome.Threw? {
        return false;
      }
      storage := outcome.storage;
      renderPOIs := !renderPOIs;
      ok := true;
    }

    /** As `ToggleMapChangeLines`, for the lines connecting pulls. */
    method TogglePullConnectionLines() returns (ok: bool)
      modifies this
      ensures ok <==> old(storage) != Some(Corrupt)
      ensures ok ==> Snapshot() == old(Snapshot()).(renderPullConnectionLines := !old(renderPullConnectionLines))
      ensures ok ==> storage == Persist(old(storage), PULL_CONNECTION_LINES_KEY, if old(renderPullConnectionLines) then Some("0") else None).storage
      ensures !ok ==> Snapshot() == old(Snapshot()) && storage == old(storage)
      ensures InSync(old(Snapshot()), old(storage)) ==> InSync(Snapshot(), storage)
    {
      var outcome := Persist(storage, PULL_CONNECTION_LINES_KEY, if renderPullConnectionLines then Some("0") else None);
      if outcome.Threw? {
        return false;
      }
      storage := outcome.storage;
      renderPullConnectionLines := !renderPullConnectionLines;
      ok := true;
    }

    /**
     * Sets the colour, then persists it; the colour is set even when persisting throws
     * (`ok` false), and the item then stays as it was.
     */
    method SetPullConnectionLineColor(value: string) returns (ok: bool)
      modifies this
      ensures Snapshot() == old(Snapshot()).(pullConnectionLineColor := value)
      ensures ok <==> old(storage) != Some(Corrupt)
      ensures storage == if ok then Persist(old(storage), PULL_CONNECTION_LINE_COLOR_KEY, Some(value)).storage else old(storage)
      ensures InSync(old(Snapshot()), old(storage)) ==> InSync(Snapshot(), storage)
    {
      pullConnectionLineColor := value;
      var outcome := Persist(storage, PULL_CONNECTION_LINE_COLOR_KEY, Some(value));
      ok := outcome.Stored?;
      if ok {
        storage := outcome.storage;
      }
    }

    /** Restores the default colour and drops its key. */
    method ResetPullConnectionLineColor() returns (ok: bool)
      modifies this
      ensures Snapshot() == old(Snapshot()).(pullConnectionLineColor := DEFAULT_PULL_CONNECTION_LINE_COLOR)
      ensures ok <==> old(storage) != Some(Corrupt)
      ensures storage == if ok then Persist(old(storage), PULL_CONNECTION_LINE_COLOR_KEY, None).storage else old(storage)
      ensures InSync(old(Snapshot()), old(storage)) ==> InSync(Snapshot(), storage)
    {
      pullConnectionLineColor := DEFAULT_PULL_CONNECTION_LINE_COLOR;
      var outcome := Persist(storage, PULL_CONNECTION_LINE_COLOR_KEY, None);
      ok := outcome.Stored?;
      if ok {
        storage := outcome.storage;
      }
    }

    /** As `SetPullConnectionLineColor`, for lines to pulls of invisible groups. */
    method SetInvisPullConnectionLineColor(value: string) returns (ok: bool)
      modifies this
      ensures Snapshot() == old(Snapshot()).(invisPullConnectionLineColor := value)
      ensures ok <==> old(storage) != Some(Corrupt)
      ensures storage == if ok then Persist(old(storage), INVIS_PULL_CONNECTION_LINE_COLOR_KEY, Some(value)).storage else old(storage)
      ensures InSync(old(Snapshot()), old(storage)) ==> InSync(Snapshot(), storage)
    {
      invisPullConnectionLineColor := value;
      var outcome := Persist(storage, INVIS_PULL_CONNECTION_LINE_COLOR_KEY, Some(value));
      ok := outcome.Stored?;
      if ok {
        storage := outcome.storage;
      }
    }

    /** As `ResetPullConnectionLineColor`, for lines to pulls of invisible groups. */
    method ResetInvisPullConnectionLineColor() returns (ok: bool)
      modifies this
      ensures Snapshot() == old(Snapshot()).(invisPullConnectionLineColor := DEFAULT_INVIS_PULL_CONNECTION_LINE_COLOR)
      ensures ok <==> old(storage) != Some(Corrupt)
      ensures storage == if ok then Persist(old(storage), INVIS_PULL_CONNECTION_LINE_COLOR_KEY, None).storage else old(storage)
      ensures InSync(old(Snapshot()), old(storage)) ==> InSync(Snapshot(), storage)
    {
      invisPullConnectionLineColor := DEFAULT_INVIS_PULL_CONNECTION_LINE_COLOR;
      var outcome := Persist(storage, INVIS_PULL_CONNECTION_LINE_COLOR_KEY, None);
      ok := outcome.Stored?;
      if ok {
        storage := outcome.storage;
      }
    }

    /** Sets every option whose key the item holds; the item itself is left alone. */
    method RestoreFromLocalStorage()
      modifies this
      ensures Snapshot() == RestoreFrom(old(Snapshot()), old(storage))
      ensures storage == old(storage)
    {
      var o := RestoreFrom(Snapshot(), storage);
      visible := o.visible;
      renderPullConnectionLines := o.renderPullConnectionLines;
      renderMapChangeLines := o.renderMapChangeLines;
      renderPOIs := o.renderPOIs;
      pullConnectionLineColor := o.pullConnectionLineColor;
      invisPullConnectionLineColor := o.invisPullConnectionLineColor;
    }
  }
}
