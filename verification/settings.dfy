/** The settings page: the device drop-down and the GPU toggle that mirrors
    it, and the access label shown for each storage path. */
module Settings {
  import opened Base

  /** The device controls: the drop-down's option values in order, its
      current value (`""` when no option is selected), and the toggle's
      checked and disabled flags. */
  datatype DeviceUi = DeviceUi(options: seq<string>, device: string, toggle: bool, toggleDisabled: bool)

  /** Assigning `select.value = v`: the option with that value becomes
      selected; with no such option nothing is selected and the value reads
      as `""`. */
  function SelectValue(options: seq<string>, v: string): (r: string)
    ensures r == "" || r in options
    ensures v in options ==> r == v
    ensures v !in options ==> r == ""
  {
    if v in options then v else ""
  }

  /** The toggle shows "GPU" exactly when the drop-down holds `gpu`. */
  predicate Consistent(ui: DeviceUi) {
    ui.toggle <==> ui.device == "gpu"
  }

  /** The drop-down's `change` handler: the user picked `chosen`, and the
      toggle follows whether it is `gpu`. */
  function OnDeviceChange(ui: DeviceUi, chosen: string): (r: DeviceUi)
    ensures r.options == ui.options && r.toggleDisabled == ui.toggleDisabled
    ensures chosen in ui.options ==> r.device == chosen
    ensures Consistent(r)
  {
    var device := SelectValue(ui.options, chosen);
    ui.(device := device, toggle := device == "gpu")
  }

  /** The toggle's `change` handler after a click flipped it to `checked`;
      the second component says whether the "GPU unavailable" notice was
      shown. */
  function OnToggle(ui: DeviceUi, checked: bool): (r: (DeviceUi, bool))
    ensures r.0.options == ui.options && r.0.toggleDisabled == ui.toggleDisabled
    ensures !checked ==> !r.1 && !r.0.toggle && r.0.device == SelectValue(ui.options, "cpu")
    ensures checked && "gpu" in ui.options ==> !r.1 && r.0.toggle && r.0.device == "gpu"
    ensures checked && "gpu" !in ui.options ==> r.1 && !r.0.toggle && r.0.device == ui.device
  {
    if !checked then (ui.(toggle := false, device := SelectValue(ui.options, "cpu")), false)
    else if "gpu" in ui.options then (ui.(toggle := true, device := "gpu"), false)
    else (ui.(toggle := false), true)
  }

  /** The part of the runtime settings response that the device controls
      read: `available_devices` (absent or `null` as `None`) and `device`
      (absent, `null` or `""` as `None`). */
  datatype RuntimeSettings = RuntimeSettings(availableDevices: Option<seq<string>>, device: Option<string>)

  /** `data.device || 'cpu'`. */
  function RequestedDevice(data: RuntimeSettings): (d: string)
    ensures d != ""
  {
    if data.device.Some? && data.device.value != "" then data.device.value else "cpu"
  }

  /** Filling the controls from a runtime settings response. */
  function ApplyRuntimeSettings(ui: DeviceUi, data: RuntimeSettings): (r: DeviceUi)
    ensures r.options == data.availableDevices.GetOr(["cpu"])
    ensures r.device == SelectValue(r.options, RequestedDevice(data))
    ensures r.toggle <==> RequestedDevice(data) == "gpu"
    ensures r.toggleDisabled <==> "gpu" !in r.options
  {
    var options := data.availableDevices.GetOr(["cpu"]);
    var requested := RequestedDevice(data);
    DeviceUi(options, SelectValue(options, requested), requested == "gpu", "gpu" !in options)
  }

  // ---------------------------------------------------------------------
  // Properties.

  /** A user action keeps the toggle and the drop-down in step: a device
      change makes them consistent from any state, and a click that flips
      the toggle keeps them consistent. */
  lemma HandlersKeepConsistent(ui: DeviceUi, chosen: string)
    ensures Consistent(OnDeviceChange(ui, chosen))
    ensures Consistent(ui) ==> Consistent(OnToggle(ui, !ui.toggle).0)
  {
  }

  /** Loading settings leaves the controls consistent exactly unless the
      server names `gpu` as the device while not listing it among the
      available devices; then the disabled toggle shows "GPU" over an empty
      drop-down. */
  lemma LoadConsistentIff(ui: DeviceUi, data: RuntimeSettings)
    ensures var r := ApplyRuntimeSettings(ui, data);
      Consistent(r) <==> !(RequestedDevice(data) == "gpu" && "gpu" !in r.options)
    ensures var r := ApplyRuntimeSettings(ui, data);
      RequestedDevice(data) == "gpu" && "gpu" !in r.options ==> r.toggle && r.toggleDisabled && r.device == ""
  {
  }

  /** With no device list the drop-down offers only `cpu`, and without a
      device `cpu` is selected and the toggle is off and disabled. */
  lemma LoadDefaults(ui: DeviceUi)
    ensures ApplyRuntimeSettings(ui, RuntimeSettings(None, None)) == DeviceUi(["cpu"], "cpu", false, true)
  {
  }

  /** Turning the toggle off when the drop-down has no `cpu` option leaves
      nothing selected. */
  lemma ToggleOffWithoutCpu(ui: DeviceUi)
    requires "cpu" !in ui.options
    ensures OnToggle(ui, false).0.device == ""
  {
  }

  // ---------------------------------------------------------------------
  // Path status.

  const LABEL_WRITABLE: string := "доступно"
  const LABEL_READ_ONLY: string := "только чтение"
  const LABEL_MISSING: string := "недоступно"

  /** The access label of a path from the truthiness of its `exists` and
      `writable` fields. */
  function PathLabel(present: bool, writable: bool): string
  {
    if present then (if writable then LABEL_WRITABLE else LABEL_READ_ONLY) else LABEL_MISSING
  }

  /** What a reader learns from a label. */
  predicate LabelSaysExists(text: string) {
    text == LABEL_WRITABLE || text == LABEL_READ_ONLY
  }

  predicate LabelSaysWritable(text: string) {
    text == LABEL_WRITABLE
  }

  /** The label tells whether the path exists and, when it does, whether it
      is writable; a missing path hides its `writable` flag. */
  lemma PathLabelReadsBack(present: bool, writable: bool)
    ensures LabelSaysExists(PathLabel(present, writable)) <==> present
    ensures LabelSaysWritable(PathLabel(present, writable)) <==> present && writable
    ensures !present ==> PathLabel(present, writable) == PathLabel(present, !writable)
  {
    assert LABEL_WRITABLE != LABEL_READ_ONLY by { assert LABEL_WRITABLE[0] != LABEL_READ_ONLY[0]; }
    assert LABEL_WRITABLE != LABEL_MISSING by { assert LABEL_WRITABLE[0] != LABEL_MISSING[0]; }
    assert LABEL_READ_ONLY != LABEL_MISSING by { assert LABEL_READ_ONLY[0] != LABEL_MISSING[0]; }
  }
}
