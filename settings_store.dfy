/** The settings store: theme, contrast, language, the dashboard widget
    list and the accessibility switches, with their defaults, one setter
    per field, widget toggling and reordering, and the reset to defaults.
    Persistence to browser storage is not part of the model. */
module SettingsStore {
  import opened Common
  import opened Seqs

  datatype Language = En | Fr | Pa | Hi | Ar

  datatype ThemeMode = Light | Dark | Auto

  datatype ContrastMode = NormalContrast | HighContrast

  datatype FontSize = Small | MediumFont | Large

  datatype DashboardWidget = DashboardWidget(id: string, name: string, enabled: bool, order: int)

  /** The four dashboard widgets of a fresh installation, all shown, in
      their order. */
  const DefaultWidgets: seq<DashboardWidget> := [
    DashboardWidget("stats", "Statistics Cards", true, 0),
    DashboardWidget("map", "Interactive Map", true, 1),
    DashboardWidget("table", "Pothole Table", true, 2),
    DashboardWidget("filters", "Filters & Search", true, 3)
  ]

  function WidgetId(w: DashboardWidget): string {
    w.id
  }

  function ToggledIf(widgetId: string): DashboardWidget -> DashboardWidget {
    (w: DashboardWidget) => if w.id == widgetId then w.(enabled := !w.enabled) else w
  }

  /** The widget list after `toggleWidget(widgetId)`: the widgets with
      that id flip `enabled`; the list keeps its length and order and the
      other widgets are untouched. */
  function ToggleWidgets(ws: seq<DashboardWidget>, widgetId: string): (r: seq<DashboardWidget>)
    ensures |r| == |ws|
    ensures Map(r, WidgetId) == Map(ws, WidgetId)
    ensures forall i :: 0 <= i < |ws| && ws[i].id != widgetId ==> r[i] == ws[i]
    ensures forall i :: 0 <= i < |ws| && ws[i].id == widgetId ==>
      r[i].enabled == !ws[i].enabled && r[i] == ws[i].(enabled := r[i].enabled)
  {
    Map(ws, ToggledIf(widgetId))
  }

  predicate IsEnabled(w: DashboardWidget) {
    w.enabled
  }

  function EnabledWithId(widgetId: string): DashboardWidget -> bool {
    (w: DashboardWidget) => w.enabled && w.id == widgetId
  }

  function DisabledWithId(widgetId: string): DashboardWidget -> bool {
    (w: DashboardWidget) => !w.enabled && w.id == widgetId
  }

  class Settings {
    var themeMode: ThemeMode
    var contrastMode: ContrastMode
    var language: Language
    var widgets: seq<DashboardWidget>
    var reducedMotion: bool
    var screenReaderMode: bool
    var fontSize: FontSize

    /** The state of a fresh installation. */
    predicate IsDefault()
      reads this
    {
      && themeMode == Light
      && contrastMode == NormalContrast
      && language == En
      && widgets == DefaultWidgets
      && !reducedMotion
      && !screenReaderMode
      && fontSize == MediumFont
    }

    constructor ()
      ensures IsDefault()
    {
      themeMode := Light;
      contrastMode := NormalContrast;
      language := En;
      widgets := DefaultWidgets;
      reducedMotion := false;
      screenReaderMode := false;
      fontSize := MediumFont;
    }

    /** `setThemeMode`; like every setter, it changes its own field only. */
    method SetThemeMode(mode: ThemeMode)
      modifies this`themeMode
      ensures themeMode == mode
    {
      themeMode := mode;
    }

    /** `setContrastMode`. */
    method SetContrastMode(mode: ContrastMode)
      modifies this`contrastMode
      ensures contrastMode == mode
    {
      contrastMode := mode;
    }

    /** `setLanguage`. */
    method SetLanguage(lang: Language)
      modifies this`language
      ensures language == lang
    {
      language := lang;
    }

    /** `setReducedMotion`. */
    method SetReducedMotion(enabled: bool)
      modifies this`reducedMotion
      ensures reducedMotion == enabled
    {
      reducedMotion := enabled;
    }

    /** `setScreenReaderMode`. */
    method SetScreenReaderMode(enabled: bool)
      modifies this`screenReaderMode
      ensures screenReaderMode == enabled
    {
      screenReaderMode := enabled;
    }

    /** `setFontSize`. */
    method SetFontSize(size: FontSize)
      modifies this`fontSize
      ensures fontSize == size
    {
      fontSize := size;
    }

    /** `toggleWidget(widgetId)`. */
    method ToggleWidget(widgetId: string)
      modifies this`widgets
      ensures widgets == ToggleWidgets(old(widgets), widgetId)
    {
      widgets := Map(widgets, ToggledIf(widgetId));
    }

    /** `reorderWidgets(ws)`: the list is replaced as given, without any
        check of its ids or order numbers. */
    method ReorderWidgets(ws: seq<DashboardWidget>)
      modifies this`widgets
      ensures widgets == ws
    {
      widgets := ws;
    }

    /** `resetSettings`: every field back to its default, whatever the
        state before, so a second reset changes nothing. */
    method ResetSettings()
      modifies this
      ensures IsDefault()
    {
      themeMode := Light;
      contrastMode := NormalContrast;
      language := En;
      widgets := DefaultWidgets;
      reducedMotion := false;
      screenReaderMode := false;
      fontSize := MediumFont;
    }
  }

  /** Toggling the same widget twice restores the list. */
  lemma ToggleTwiceIsIdentity(ws: seq<DashboardWidget>, widgetId: string)
    ensures ToggleWidgets(ToggleWidgets(ws, widgetId), widgetId) == ws
  {
  }

  /** Toggling an id that no widget has changes nothing. */
  lemma ToggleUnknownIdIsNoop(ws: seq<DashboardWidget>, widgetId: string)
    requires forall i :: 0 <= i < |ws| ==> ws[i].id != widgetId
    ensures ToggleWidgets(ws, widgetId) == ws
  {
  }

  /** Toggling moves the matching widgets between shown and hidden: the
      shown count loses the shown ones and gains the hidden ones. */
  lemma {:induction false} EnabledCountAfterToggle(ws: seq<DashboardWidget>, widgetId: string)
    ensures |Filter(ToggleWidgets(ws, widgetId), IsEnabled)|
         == |Filter(ws, IsEnabled)| - |Filter(ws, EnabledWithId(widgetId))|
            + |Filter(ws, DisabledWithId(widgetId))|
  {
    if ws != [] {
      EnabledCountAfterToggle(ws[1..], widgetId);
      assert ToggleWidgets(ws, widgetId) == [ToggledIf(widgetId)(ws[0])] + ToggleWidgets(ws[1..], widgetId);
      FilterCons(ToggledIf(widgetId)(ws[0]), ToggleWidgets(ws[1..], widgetId), IsEnabled);
    }
  }

  /** The default widgets are all shown, numbered by their position, with
      distinct ids. */
  lemma DefaultWidgetsWellFormed()
    ensures forall i :: 0 <= i < |DefaultWidgets| ==>
      DefaultWidgets[i].enabled && DefaultWidgets[i].order == i
    ensures forall i, j :: 0 <= i < j < |DefaultWidgets| ==> DefaultWidgets[i].id != DefaultWidgets[j].id
  {
    assert DefaultWidgets[0].id[0] == 's' && DefaultWidgets[1].id[0] == 'm';
    assert DefaultWidgets[2].id[0] == 't' && DefaultWidgets[3].id[0] == 'f';
  }
}
