/**
 * The fleet configuration page (Configure/Index.tsx): a configuration record
 * checked by a schema, a drag-and-drop task priority list, and save / reset
 * buttons that write the record to the browser's local storage under
 * "fleetConfig".
 */
module ConfigureIndex {
  import opened Wrappers
  import opened Forms
  import TaskOrder

  datatype Field =
    | OperationMode | TaskSchedulingMode | SafetyProtocolMode | EnergySavingMode
    | SpeedLimit | TaskPriority

  datatype Config = Config(
    operationMode: string,
    taskSchedulingMode: string,
    safetyProtocolMode: string,
    energySavingMode: string,
    speedLimit: real,
    taskPriority: seq<string>)

  const OperationModes: seq<string> := ["Autonomous", "Manual", "Hybrid"]
  const SchedulingModes: seq<string> := ["Balanced", "Priority", "Sequential"]
  const SafetyModes: seq<string> := ["Standard", "Enhanced", "Minimal"]
  const EnergyModes: seq<string> := ["Eco", "Performance", "Balanced"]
  const MinSpeed: real := 0.5
  const MaxSpeed: real := 5.0

  const DefaultConfig: Config := Config(
    "Autonomous", "Balanced", "Standard", "Balanced", 2.5,
    ["Delivery", "Inspection", "Maintenance"])

  /** The schema's constraints, field by field. */
  predicate Valid(c: Config)
  {
    && c.operationMode in OperationModes
    && c.taskSchedulingMode in SchedulingModes
    && c.safetyProtocolMode in SafetyModes
    && c.energySavingMode in EnergyModes
    && MinSpeed <= c.speedLimit <= MaxSpeed
    && |c.taskPriority| >= 1
  }

  /** The message the schema reports on one field, or None when the field passes. */
  function FieldMessage(c: Config, f: Field): Option<string>
  {
    match f
    case OperationMode =>
      if c.operationMode in OperationModes then None else Some("Please select an operation mode")
    case TaskSchedulingMode =>
      if c.taskSchedulingMode in SchedulingModes then None else Some("Please select a task scheduling mode")
    case SafetyProtocolMode =>
      if c.safetyProtocolMode in SafetyModes then None else Some("Please select a safety protocol mode")
    case EnergySavingMode =>
      if c.energySavingMode in EnergyModes then None else Some("Please select an energy saving mode")
    case SpeedLimit =>
      if c.speedLimit < MinSpeed then Some("Speed must be at least 0.5 m/s")
      else if c.speedLimit > MaxSpeed then Some("Speed cannot exceed 5 m/s")
      else None
    case TaskPriority =>
      if |c.taskPriority| >= 1 then None else Some("At least one task is required")
  }

  /** The issue list `configSchema.parse` reports, in the schema's field order. */
  function Issues(c: Config): seq<Issue<Field>>
  {
    IssueIf(OperationMode, FieldMessage(c, OperationMode))
    + IssueIf(TaskSchedulingMode, FieldMessage(c, TaskSchedulingMode))
    + IssueIf(SafetyProtocolMode, FieldMessage(c, SafetyProtocolMode))
    + IssueIf(EnergySavingMode, FieldMessage(c, EnergySavingMode))
    + IssueIf(SpeedLimit, FieldMessage(c, SpeedLimit))
    + IssueIf(TaskPriority, FieldMessage(c, TaskPriority))
  }

  /** Parsing succeeds exactly on the configurations that meet every constraint. */
  lemma ParseSucceedsIffValid(c: Config)
    ensures Issues(c) == [] <==> Valid(c)
  {
  }

  /** The error map built from a failed parse holds, for every field, exactly that field's message. */
  lemma ErrorsAreFieldMessages(c: Config)
    ensures forall f :: LastMessage(Issues(c), f) == FieldMessage(c, f)
  {
    forall f
      ensures LastMessage(Issues(c), f) == FieldMessage(c, f)
    {
      var i1 := IssueIf(OperationMode, FieldMessage(c, OperationMode));
      var i2 := IssueIf(TaskSchedulingMode, FieldMessage(c, TaskSchedulingMode));
      var i3 := IssueIf(SafetyProtocolMode, FieldMessage(c, SafetyProtocolMode));
      var i4 := IssueIf(EnergySavingMode, FieldMessage(c, EnergySavingMode));
      var i5 := IssueIf(SpeedLimit, FieldMessage(c, SpeedLimit));
      var i6 := IssueIf(TaskPriority, FieldMessage(c, TaskPriority));
      LastMessageAppend(i1, i2, f);
      LastMessageAppend(i1 + i2, i3, f);
      LastMessageAppend(i1 + i2 + i3, i4, f);
      LastMessageAppend(i1 + i2 + i3 + i4, i5, f);
      LastMessageAppend(i1 + i2 + i3 + i4 + i5, i6, f);
      LastMessageIssueIf(OperationMode, FieldMessage(c, OperationMode), f);
      LastMessageIssueIf(TaskSchedulingMode, FieldMessage(c, TaskSchedulingMode), f);
      LastMessageIssueIf(SafetyProtocolMode, FieldMessage(c, SafetyProtocolMode), f);
      LastMessageIssueIf(EnergySavingMode, FieldMessage(c, EnergySavingMode), f);
      LastMessageIssueIf(SpeedLimit, FieldMessage(c, SpeedLimit), f);
      LastMessageIssueIf(TaskPriority, FieldMessage(c, TaskPriority), f);
    }
  }

  /** The speed limit passes on the closed interval [0.5, 5] and reports which bound it crosses otherwise. */
  lemma SpeedLimitBounds(c: Config)
    ensures FieldMessage(c, SpeedLimit) == None <==> 0.5 <= c.speedLimit <= 5.0
    ensures c.speedLimit < 0.5 ==> FieldMessage(c, SpeedLimit) == Some("Speed must be at least 0.5 m/s")
    ensures c.speedLimit > 5.0 ==> FieldMessage(c, SpeedLimit) == Some("Speed cannot exceed 5 m/s")
  {
  }

  /** A mode field passes only on its three listed values; an empty task list fails. */
  lemma ModeAndTaskRules(c: Config)
    ensures FieldMessage(c, OperationMode) == None <==>
      c.operationMode == "Autonomous" || c.operationMode == "Manual" || c.operationMode == "Hybrid"
    ensures FieldMessage(c, TaskSchedulingMode) == None <==>
      c.taskSchedulingMode == "Balanced" || c.taskSchedulingMode == "Priority" || c.taskSchedulingMode == "Sequential"
    ensures FieldMessage(c, SafetyProtocolMode) == None <==>
      c.safetyProtocolMode == "Standard" || c.safetyProtocolMode == "Enhanced" || c.safetyProtocolMode == "Minimal"
    ensures FieldMessage(c, EnergySavingMode) == None <==>
      c.energySavingMode == "Eco" || c.energySavingMode == "Performance" || c.energySavingMode == "Balanced"
    ensures c.taskPriority == [] ==> FieldMessage(c, TaskPriority) == Some("At least one task is required")
  {
  }

  /** The default configuration passes every rule of the schema. */
  lemma DefaultConfigValid()
    ensures Valid(DefaultConfig) && Issues(DefaultConfig) == []
  {
    ParseSucceedsIffValid(DefaultConfig);
  }

  /** A configuration's field, as `handleChange` names it. */
  function Get(c: Config, f: Field): (v: Value)
    ensures Fits(f, v)
  {
    match f
    case OperationMode => Text(c.operationMode)
    case TaskSchedulingMode => Text(c.taskSchedulingMode)
    case SafetyProtocolMode => Text(c.safetyProtocolMode)
    case EnergySavingMode => Text(c.energySavingMode)
    case SpeedLimit => Number(c.speedLimit)
    case TaskPriority => Tasks(c.taskPriority)
  }

  /** The values the page's controls pass for each field: text for the selects, a number for the slider, a list for the drag handler. */
  predicate Fits(f: Field, v: Value)
  {
    match f
    case SpeedLimit => v.Number?
    case TaskPriority => v.Tasks?
    case _ => v.Text?
  }

  /** `{ ...prev, [name]: value }`. */
  function With(c: Config, f: Field, v: Value): (r: Config)
    requires Fits(f, v)
    ensures Get(r, f) == v
    ensures forall g :: g != f ==> Get(r, g) == Get(c, g)
  {
    match f
    case OperationMode => c.(operationMode := v.text)
    case TaskSchedulingMode => c.(taskSchedulingMode := v.text)
    case SafetyProtocolMode => c.(safetyProtocolMode := v.text)
    case EnergySavingMode => c.(energySavingMode := v.text)
    case SpeedLimit => c.(speedLimit := v.number)
    case TaskPriority => c.(taskPriority := v.tasks)
  }

  /** What local storage holds under "fleetConfig": the JSON text of a configuration, or any other text. */
  datatype Stored = Serialized(config: Config) | OtherText(text: string)

  const StorageKey: string := "fleetConfig"

  /**
   * The configuration the page starts with: the stored one when storage holds
   * a serialized configuration; the default when nothing is stored, when the
   * stored text is "" or "undefined", or when it does not parse.
   */
  function InitialConfig(storage: map<string, Stored>): Config
  {
    if StorageKey !in storage then DefaultConfig
    else match storage[StorageKey]
      case Serialized(c) => c
      case OtherText(t) =>
        // "" is falsy and "undefined" is refused explicitly; any other text is
        // taken as one JSON.parse rejects, which the catch turns into the default.
        DefaultConfig
  }

  /** Load falls back to the default for a missing, "undefined" or unparseable value, and returns a saved configuration unchanged. */
  lemma InitialConfigFallback(storage: map<string, Stored>, c: Config)
    ensures StorageKey !in storage ==> InitialConfig(storage) == DefaultConfig
    ensures StorageKey in storage && storage[StorageKey].OtherText? ==> InitialConfig(storage) == DefaultConfig
    ensures InitialConfig(storage[StorageKey := Serialized(c)]) == c
  {
  }

  const SavedText: string := "Settings saved successfully!"
  const FixErrorsText: string := "Please fix the errors before saving."
  const ResetText: string := "Settings reset to default."

  datatype MessageKind = Success | Failure
  datatype Message = Message(kind: MessageKind, text: string)

  class ConfigPage {
    var config: Config
    var errors: map<Field, string>
    var message: Option<Message>
    var localStorage: map<string, Stored>

    constructor (storage: map<string, Stored>)
      ensures localStorage == storage
      ensures config == InitialConfig(storage)
      ensures errors == map[] && message == None
    {
      localStorage := storage;
      config := InitialConfig(storage);
      errors := map[];
      message := None;
    }

    /** A control changed one field: only that field changes, only its error is cleared, and the banner message goes. */
    method HandleChange(name: Field, value: Value)
      requires Fits(name, value)
      modifies this
      ensures config == With(old(config), name, value)
      ensures Get(config, name) == value
      ensures forall g :: g != name ==> Get(config, g) == Get(old(config), g)
      ensures errors == old(errors) - {name}
      ensures message == None
      ensures localStorage == old(localStorage)
    {
      config := With(config, name, value);
      errors := errors - {name};
      message := None;
    }

    /**
     * A drag ended on `over` (None when dropped outside the list). With no
     * target or a drop on itself nothing happens; otherwise the list is
     * re-spliced WITHOUT checking that either id was found.
     */
    method HandleDragEnd(active: string, over: Option<string>)
      modifies this
      ensures over.None? || over.value == active ==>
        config == old(config) && errors == old(errors) && message == old(message)
      ensures over.Some? && over.value != active ==>
        var tasks := old(config.taskPriority);
        && config == old(config).(taskPriority :=
             TaskOrder.MoveTask(tasks, TaskOrder.FindIndex(tasks, active), TaskOrder.FindIndex(tasks, over.value), active))
        && errors == old(errors) - {TaskPriority}
        && message == None
      ensures localStorage == old(localStorage)
    {
      if over.Some? && active != over.value {
        var oldIndex := TaskOrder.FindIndex(config.taskPriority, active);
        var newIndex := TaskOrder.FindIndex(config.taskPriority, over.value);
        var newPriority := config.taskPriority;
        newPriority := TaskOrder.SpliceRemoveOne(newPriority, oldIndex);
        newPriority := TaskOrder.SpliceInsert(newPriority, newIndex, active);
        HandleChange(TaskPriority, Tasks(newPriority));
      }
    }

    /**
     * Save: a valid configuration is written to local storage and the errors
     * are cleared; an invalid one writes nothing and records the last issue
     * reported on each field (by ErrorsAreFieldMessages, exactly the message
     * of the rule that field breaks, and no entry for a field that passes).
     */
    method HandleSave()
      modifies this
      ensures config == old(config)
      ensures Valid(config) ==>
        && localStorage == old(localStorage)[StorageKey := Serialized(config)]
        && InitialConfig(localStorage) == config
        && errors == map[]
        && message == Some(Message(Success, SavedText))
      ensures !Valid(config) ==>
        && localStorage == old(localStorage)
        && (forall f :: Lookup(errors, f) == LastMessage(Issues(config), f))
        && message == Some(Message(Failure, FixErrorsText))
    {
      var issues := Issues(config);
      if issues == [] {
        assert Valid(config) by { ParseSucceedsIffValid(config); }
        localStorage := localStorage[StorageKey := Serialized(config)];
        message := Some(Message(Success, SavedText));
        errors := map[];
      } else {
        assert !Valid(config) by { ParseSucceedsIffValid(config); }
        var newErrors := CollectFieldErrors(issues);
        errors := newErrors;
        message := Some(Message(Failure, FixErrorsText));
      }
    }

    /** Reset: the default configuration, written to local storage, with no errors. */
    method HandleReset()
      modifies this
      ensures config == DefaultConfig && Valid(config)
      ensures localStorage == old(localStorage)[StorageKey := Serialized(DefaultConfig)]
      ensures InitialConfig(localStorage) == DefaultConfig
      ensures errors == map[]
      ensures message == Some(Message(Success, ResetText))
    {
      config := DefaultConfig;
      localStorage := localStorage[StorageKey := Serialized(DefaultConfig)];
      errors := map[];
      message := Some(Message(Success, ResetText));
      DefaultConfigValid();
    }
  }
}
