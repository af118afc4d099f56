/**
 * The machine settings store (server/src/services/SettingsService.ts): settings
 * cached in memory, read from and written to `machine_settings.json`, and updated
 * by a partial merge. The file is modelled as the settings it last held (`None`
 * when it is missing or unreadable).
 */
module Settings {
  import opened Wrappers

  datatype Origin = BottomLeft | TopLeft | Center

  datatype Workbench = Workbench(width: real, height: real, depth: real, origin: Origin, showWorkbench: bool)

  datatype AxisSettings = AxisSettings(visible: bool, min: real, max: real, direction: real, reversed: bool)

  datatype Axes = Axes(x: AxisSettings, y: AxisSettings, z: AxisSettings)

  /** Macros are kept as they come; each entry is its JSON text. */
  datatype MachineSettings = MachineSettings(workbench: Workbench, axes: Axes, macros: seq<string>)

  /** A workbench 300 x 200 x 50 with its origin bottom left, shown; axes 0..300, 0..200, 0..50; no macros. */
  const DefaultSettings := MachineSettings(
    Workbench(300.0, 200.0, 50.0, BottomLeft, true),
    Axes(AxisSettings(true, 0.0, 300.0, 1.0, false),
         AxisSettings(true, 0.0, 200.0, 1.0, false),
         AxisSettings(true, 0.0, 50.0, 1.0, false)),
    [])

  datatype WorkbenchUpdate = WorkbenchUpdate(
    width: Option<real>, height: Option<real>, depth: Option<real>,
    origin: Option<Origin>, showWorkbench: Option<bool>)

  datatype AxisUpdate = AxisUpdate(
    visible: Option<bool>, min: Option<real>, max: Option<real>,
    direction: Option<real>, reversed: Option<bool>)

  datatype AxesUpdate = AxesUpdate(x: Option<AxisUpdate>, y: Option<AxisUpdate>, z: Option<AxisUpdate>)

  /** The sections and fields present in a `saveSettings` request. */
  datatype SettingsUpdate = SettingsUpdate(
    workbench: Option<WorkbenchUpdate>, axes: Option<AxesUpdate>, macros: Option<seq<string>>)

  /** `{ ...w, ...u }` */
  function MergeWorkbench(w: Workbench, u: WorkbenchUpdate): (r: Workbench)
    ensures r.width == u.width.GetOr(w.width) && r.height == u.height.GetOr(w.height)
    ensures r.depth == u.depth.GetOr(w.depth) && r.origin == u.origin.GetOr(w.origin)
    ensures r.showWorkbench == u.showWorkbench.GetOr(w.showWorkbench)
  {
    Workbench(u.width.GetOr(w.width), u.height.GetOr(w.height), u.depth.GetOr(w.depth),
              u.origin.GetOr(w.origin), u.showWorkbench.GetOr(w.showWorkbench))
  }

  /** `{ ...a, ...(u || {}) }` */
  function MergeAxis(a: AxisSettings, u: Option<AxisUpdate>): (r: AxisSettings)
    ensures u.None? ==> r == a
    ensures u.Some? ==>
      && r.visible == u.value.visible.GetOr(a.visible) && r.min == u.value.min.GetOr(a.min)
      && r.max == u.value.max.GetOr(a.max) && r.direction == u.value.direction.GetOr(a.direction)
      && r.reversed == u.value.reversed.GetOr(a.reversed)
  {
    match u
    case None => a
    case Some(v) =>
      AxisSettings(v.visible.GetOr(a.visible), v.min.GetOr(a.min), v.max.GetOr(a.max),
                   v.direction.GetOr(a.direction), v.reversed.GetOr(a.reversed))
  }

  /**
   * `saveSettings`' merge: an absent section is kept, macros are replaced wholesale,
   * the workbench is merged field by field, the axes axis by axis and field by field.
   */
  function Merge(current: MachineSettings, u: SettingsUpdate): (r: MachineSettings)
    ensures r.macros == u.macros.GetOr(current.macros)
    ensures u.workbench.None? ==> r.workbench == current.workbench
    ensures u.workbench.Some? ==> r.workbench == MergeWorkbench(current.workbench, u.workbench.value)
    ensures u.axes.None? ==> r.axes == current.axes
    ensures u.axes.Some? ==> r.axes == Axes(MergeAxis(current.axes.x, u.axes.value.x),
                                             MergeAxis(current.axes.y, u.axes.value.y),
                                             MergeAxis(current.axes.z, u.axes.value.z))
  {
    var workbench := if u.workbench.Some? then MergeWorkbench(current.workbench, u.workbench.value) else current.workbench;
    var axes := if u.axes.Some? then
        Axes(MergeAxis(current.axes.x, u.axes.value.x),
             MergeAxis(current.axes.y, u.axes.value.y),
             MergeAxis(current.axes.z, u.axes.value.z))
      else current.axes;
    MachineSettings(workbench, axes, u.macros.GetOr(current.macros))
  }

  /** The update that names every field of `s`. */
  function Full(s: MachineSettings): SettingsUpdate {
    var w := s.workbench;
    SettingsUpdate(
      Some(WorkbenchUpdate(Some(w.width), Some(w.height), Some(w.depth), Some(w.origin), Some(w.showWorkbench))),
      Some(AxesUpdate(Some(FullAxis(s.axes.x)), Some(FullAxis(s.axes.y)), Some(FullAxis(s.axes.z)))),
      Some(s.macros))
  }

  function FullAxis(a: AxisSettings): AxisUpdate {
    AxisUpdate(Some(a.visible), Some(a.min), Some(a.max), Some(a.direction), Some(a.reversed))
  }

  /** Saving a full set of settings stores exactly that set, whatever was there. */
  lemma MergeFull(current: MachineSettings, s: MachineSettings)
    ensures Merge(current, Full(s)) == s
  {
  }

  /** Saving the same update twice is saving it once. */
  lemma MergeIdempotent(current: MachineSettings, u: SettingsUpdate)
    ensures Merge(Merge(current, u), u) == Merge(current, u)
  {
  }

  class SettingsService {
    /** The cached settings. */
    var settings: Option<MachineSettings>
    /** What `machine_settings.json` holds; `None` when it is missing or cannot be read. */
    var stored: Option<MachineSettings>

    constructor (file: Option<MachineSettings>)
      ensures settings == None && stored == file
    {
      settings := None;
      stored := file;
    }

    /**
     * The cached settings; else those read from the file; else the defaults, which
     * are then saved.
     */
    method GetSettings() returns (s: MachineSettings)
      modifies this
      ensures s == old(settings).GetOr(old(stored).GetOr(DefaultSettings))
      ensures settings == Some(s)
      ensures stored == if old(settings).None? && old(stored).None? then Some(DefaultSettings) else old(stored)
      decreases if settings.Some? then 0 else 2
    {
      if settings.Some? {
        return settings.value;
      }
      if stored.Some? {
        settings := stored;
        return stored.value;
      }
      settings := Some(DefaultSettings);
      s := SaveSettings(Full(DefaultSettings));
      MergeFull(DefaultSettings, DefaultSettings);
    }

    /** Merges the update into the current settings, caches the result and writes it out. */
    method SaveSettings(update: SettingsUpdate) returns (s: MachineSettings)
      modifies this
      ensures s == Merge(old(settings).GetOr(old(stored).GetOr(DefaultSettings)), update)
      ensures settings == Some(s) && stored == Some(s)
      decreases if settings.Some? then 1 else 3
    {
      var current := GetSettings();
      s := Merge(current, update);
      settings := Some(s);
      stored := Some(s);
    }
  }
}
