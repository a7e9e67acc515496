/**
 * The automation settings page (Configure/automation.tsx): a second
 * configuration record with its own schema, a guarded drag-and-drop task
 * list, +/- buttons for the movement precision, a three-stop slider for the
 * sensor sensitivity, and save / reset buttons that never touch storage.
 */
module ConfigureAutomation {
  import opened Wrappers
  import opened Forms
  import TaskOrder

  datatype Field =
    | WorkflowMode | SensorSensitivity | ErrorHandlingMode | PowerOptimization
    | MovementPrecision | TaskPriority

  datatype Automation = Automation(
    workflowMode: string,
    sensorSensitivity: string,
    errorHandlingMode: string,
    powerOptimization: string,
    movementPrecision: real,
    taskPriority: seq<string>)

  const WorkflowModes: seq<string> := ["Fully Automated", "Semi-Automated", "Operator-Assisted"]
  const Sensitivities: seq<string> := ["High", "Medium", "Low"]
  const ErrorHandlingModes: seq<string> := ["Auto-Recover", "Pause and Alert", "Manual Intervention"]
  const PowerModes: seq<string> := ["Max Efficiency", "Balanced", "High Performance"]
  const MinPrecision: real := 0.1
  const MaxPrecision: real := 5.0
  const PrecisionStep: real := 0.1

  const DefaultAutomation: Automation := Automation(
    "Fully Automated", "Medium", "Pause and Alert", "Balanced", 1.0,
    ["Assembly", "Quality Check", "Material Handling"])

  /** The schema's constraints, field by field. */
  predicate Valid(a: Automation)
  {
    && a.workflowMode in WorkflowModes
    && a.sensorSensitivity in Sensitivities
    && a.errorHandlingMode in ErrorHandlingModes
    && a.powerOptimization in PowerModes
    && MinPrecision <= a.movementPrecision <= MaxPrecision
    && |a.taskPriority| >= 1
  }

  /** The message the schema reports on one field, or None when the field passes. */
  function FieldMessage(a: Automation, f: Field): Option<string>
  {
    match f
    case WorkflowMode =>
      if a.workflowMode in WorkflowModes then None else Some("Select a workflow mode")
    case SensorSensitivity =>
      if a.sensorSensitivity in Sensitivities then None else Some("Select a sensor sensitivity")
    case ErrorHandlingMode =>
      if a.errorHandlingMode in ErrorHandlingModes then None else Some("Select an error handling mode")
    case PowerOptimization =>
      if a.powerOptimization in PowerModes then None else Some("Select a power optimization mode")
    case MovementPrecision =>
      if a.movementPrecision < MinPrecision then Some("Precision must be at least 0.1 mm")
      else if a.movementPrecision > MaxPrecision then Some("Precision cannot exceed 5 mm")
      else None
    case TaskPriority =>
      if |a.taskPriority| >= 1 then None else Some("At least one task is required")
  }

  /** The issue list `automationSchema.parse` reports, in the schema's field order. */
  function Issues(a: Automation): seq<Issue<Field>>
  {
    IssueIf(WorkflowMode, FieldMessage(a, WorkflowMode))
    + IssueIf(SensorSensitivity, FieldMessage(a, SensorSensitivity))
    + IssueIf(ErrorHandlingMode, FieldMessage(a, ErrorHandlingMode))
    + IssueIf(PowerOptimization, FieldMessage(a, PowerOptimization))
    + IssueIf(MovementPrecision, FieldMessage(a, MovementPrecision))
    + IssueIf(TaskPriority, FieldMessage(a, TaskPriority))
  }

  /** Parsing succeeds exactly on the settings that meet every constraint. */
  lemma ParseSucceedsIffValid(a: Automation)
    ensures Issues(a) == [] <==> Valid(a)
  {
  }

  /** The error map built from a failed parse holds, for every field, exactly that field's message. */
  lemma ErrorsAreFieldMessages(a: Automation)
    ensures forall f :: LastMessage(Issues(a), f) == FieldMessage(a, f)
  {
    forall f
      ensures LastMessage(Issues(a), f) == FieldMessage(a, f)
    {
      var i1 := IssueIf(WorkflowMode, FieldMessage(a, WorkflowMode));
      var i2 := IssueIf(SensorSensitivity, FieldMessage(a, SensorSensitivity));
      var i3 := IssueIf(ErrorHandlingMode, FieldMessage(a, ErrorHandlingMode));
      var i4 := IssueIf(PowerOptimization, FieldMessage(a, PowerOptimization));
      var i5 := IssueIf(MovementPrecision, FieldMessage(a, MovementPrecision));
      var i6 := IssueIf(TaskPriority, FieldMessage(a, TaskPriority));
      LastMessageAppend(i1, i2, f);
      LastMessageAppend(i1 + i2, i3, f);
      LastMessageAppend(i1 + i2 + i3, i4, f);
      LastMessageAppend(i1 + i2 + i3 + i4, i5, f);
      LastMessageAppend(i1 + i2 + i3 + i4 + i5, i6, f);
      LastMessageIssueIf(WorkflowMode, FieldMessage(a, WorkflowMode), f);
      LastMessageIssueIf(SensorSensitivity, FieldMessage(a, SensorSensitivity), f);
      LastMessageIssueIf(ErrorHandlingMode, FieldMessage(a, ErrorHandlingMode), f);
      LastMessageIssueIf(PowerOptimization, FieldMessage(a, PowerOptimization), f);
      LastMessageIssueIf(MovementPrecision, FieldMessage(a, MovementPrecision), f);
      LastMessageIssueIf(TaskPriority, FieldMessage(a, TaskPriority), f);
    }
  }

  /** Precision passes exactly on [0.1, 5]; an empty task list fails. */
  lemma PrecisionAndTaskRules(a: Automation)
    ensures FieldMessage(a, MovementPrecision) == None <==> 0.1 <= a.movementPrecision <= 5.0
    ensures a.movementPrecision < 0.1 ==> FieldMessage(a, MovementPrecision) == Some("Precision must be at least 0.1 mm")
    ensures a.movementPrecision > 5.0 ==> FieldMessage(a, MovementPrecision) == Some("Precision cannot exceed 5 mm")
    ensures a.taskPriority == [] ==> FieldMessage(a, TaskPriority) == Some("At least one task is required")
  {
  }

  /** The default settings pass every rule of the schema. */
  lemma DefaultAutomationValid()
    ensures Valid(DefaultAutomation) && Issues(DefaultAutomation) == []
  {
    ParseSucceedsIffValid(DefaultAutomation);
  }

  /** The "-" button's new precision, `Math.max(0.1, precision - 0.1)`. */
  function PrecisionDown(p: real): real
  {
    if p - PrecisionStep < MinPrecision then MinPrecision else p - PrecisionStep
  }

  /** The "+" button's new precision, `Math.min(5, precision + 0.1)`. */
  function PrecisionUp(p: real): real
  {
    if p + PrecisionStep > MaxPrecision then MaxPrecision else p + PrecisionStep
  }

  /**
   * "-" never goes below 0.1 and "+" never above 5; from a valid precision
   * both stay valid, and each moves by one step unless it meets its bound.
   */
  lemma PrecisionButtonsClamp(p: real)
    ensures PrecisionDown(p) >= 0.1
    ensures PrecisionUp(p) <= 5.0
    ensures 0.1 <= p <= 5.0 ==> 0.1 <= PrecisionDown(p) <= 5.0 && 0.1 <= PrecisionUp(p) <= 5.0
    ensures p >= 0.2 ==> PrecisionDown(p) == p - 0.1
    ensures p <= 4.9 ==> PrecisionUp(p) == p + 0.1
  {
  }

  /** The slider's stops, left to right. */
  const SliderStops: seq<string> := ["Low", "Medium", "High"]

  /** The slider position for a sensitivity: `indexOf(s) * 50` (so -50 for an unknown one); `indexOf` is `TaskOrder.FindIndex`. */
  function SliderPosition(s: string): int
  {
    TaskOrder.FindIndex(SliderStops, s) * 50
  }

  /** JavaScript's `Math.round(v / 50)` on an integer slider value: half-way rounds up. */
  function RoundDiv50(v: int): int
  {
    (v + 25) / 50
  }

  /** The sensitivity a slider value selects: `list[Math.round(v / 50)]`, None (`undefined`) off the list. */
  function SliderSensitivity(v: int): Option<string>
  {
    var i := RoundDiv50(v);
    if 0 <= i < |SliderStops| then Some(SliderStops[i]) else None
  }

  /** Encoding a sensitivity as a slider position and decoding it gives it back; an unknown one decodes to nothing. */
  lemma SliderRoundTrip(s: string)
    ensures s in SliderStops ==> SliderSensitivity(SliderPosition(s)) == Some(s)
    ensures s !in SliderStops ==> SliderSensitivity(SliderPosition(s)) == None
  {
    var i := TaskOrder.FindIndex(SliderStops, s);
    assert RoundDiv50(i * 50) == i;
  }

  /** Every value in the slider's range [0, 100] selects one of the three stops. */
  lemma SliderRangeSelects(v: int)
    requires 0 <= v <= 100
    ensures SliderSensitivity(v).Some? && SliderSensitivity(v).value in SliderStops
  {
  }

  /** A setting's field, as `handleChange` names it. */
  function Get(a: Automation, f: Field): (v: Value)
    ensures Fits(f, v)
  {
    match f
    case WorkflowMode => Text(a.workflowMode)
    case SensorSensitivity => Text(a.sensorSensitivity)
    case ErrorHandlingMode => Text(a.errorHandlingMode)
    case PowerOptimization => Text(a.powerOptimization)
    case MovementPrecision => Number(a.movementPrecision)
    case TaskPriority => Tasks(a.taskPriority)
  }

  /** The values the page's controls pass for each field. */
  predicate Fits(f: Field, v: Value)
  {
    match f
    case MovementPrecision => v.Number?
    case TaskPriority => v.Tasks?
    case _ => v.Text?
  }

  /** `{ ...prev, [name]: value }`. */
  function With(a: Automation, f: Field, v: Value): (r: Automation)
    requires Fits(f, v)
    ensures Get(r, f) == v
    ensures forall g :: g != f ==> Get(r, g) == Get(a, g)
  {
    match f
    case WorkflowMode => a.(workflowMode := v.text)
    case SensorSensitivity => a.(sensorSensitivity := v.text)
    case ErrorHandlingMode => a.(errorHandlingMode := v.text)
    case PowerOptimization => a.(powerOptimization := v.text)
    case MovementPrecision => a.(movementPrecision := v.number)
    case TaskPriority => a.(taskPriority := v.tasks)
  }

  datatype MessageKind = Success | Failure
  datatype Message = Message(kind: MessageKind, text: string)

  const ValidatedText: string := "Settings validated successfully!"
  const FixErrorsText: string := "Please fix the errors before saving."
  const ResetText: string := "Settings reset to default."

  class AutomationPage {
    var config: Automation
    var errors: map<Field, string>
    var message: Option<Message>

    constructor ()
      ensures config == DefaultAutomation && errors == map[] && message == None
    {
      config := DefaultAutomation;
      errors := map[];
      message := None;
    }

    /**
     * A control changed one field. An `undefined`/`null` value (None) changes
     * nothing; otherwise only that field changes, only its error is cleared,
     * and the banner message goes.
     */
    method HandleChange(name: Field, value: Option<Value>)
      requires value.Some? ==> Fits(name, value.value)
      modifies this
      ensures value.None? ==> config == old(config) && errors == old(errors) && message == old(message)
      ensures value.Some? ==>
        && config == With(old(config), name, value.value)
        && Get(config, name) == value.value
        && (forall g :: g != name ==> Get(config, g) == Get(old(config), g))
        && errors == old(errors) - {name}
        && message == None
    {
      if value.Some? {
        config := With(config, name, value.value);
        errors := errors - {name};
        message := None;
      }
    }

    /**
     * A drag ended on `over`. It reorders only when there is a target, it is
     * not the dragged task itself, and both ids are in the list.
     */
    method HandleDragEnd(active: string, over: Option<string>)
      modifies this
      ensures var tasks := old(config.taskPriority);
        if over.Some? && over.value != active && active in tasks && over.value in tasks then
          && config == old(config).(taskPriority :=
               TaskOrder.MoveTask(tasks, TaskOrder.FindIndex(tasks, active), TaskOrder.FindIndex(tasks, over.value), active))
          && errors == old(errors) - {TaskPriority}
          && message == None
        else
          config == old(config) && errors == old(errors) && message == old(message)
    {
      if over.Some? && active != over.value {
        var oldIndex := TaskOrder.FindIndex(config.taskPriority, active);
        var newIndex := TaskOrder.FindIndex(config.taskPriority, over.value);
        if oldIndex != -1 && newIndex != -1 {
          var newPriority := config.taskPriority;
          newPriority := TaskOrder.SpliceRemoveOne(newPriority, oldIndex);
          newPriority := TaskOrder.SpliceInsert(newPriority, newIndex, active);
          HandleChange(TaskPriority, Some(Tasks(newPriority)));
        }
      }
    }

    /** The "-" button. */
    method DecreasePrecision()
      modifies this
      ensures config == old(config).(movementPrecision := PrecisionDown(old(config.movementPrecision)))
      ensures config.movementPrecision >= 0.1
      ensures errors == old(errors) - {MovementPrecision} && message == None
    {
      HandleChange(MovementPrecision, Some(Number(PrecisionDown(config.movementPrecision))));
      PrecisionButtonsClamp(old(config.movementPrecision));
    }

    /** The "+" button. */
    method IncreasePrecision()
      modifies this
      ensures config == old(config).(movementPrecision := PrecisionUp(old(config.movementPrecision)))
      ensures config.movementPrecision <= 5.0
      ensures errors == old(errors) - {MovementPrecision} && message == None
    {
      HandleChange(MovementPrecision, Some(Number(PrecisionUp(config.movementPrecision))));
      PrecisionButtonsClamp(old(config.movementPrecision));
    }

    /** The sensitivity slider moved to `v`; a value that selects no stop changes nothing. */
    method SlideSensitivity(v: int)
      modifies this
      ensures SliderSensitivity(v).Some? ==>
        config == old(config).(sensorSensitivity := SliderSensitivity(v).value)
      ensures SliderSensitivity(v).Some? ==>
        errors == old(errors) - {SensorSensitivity} && message == None
      ensures SliderSensitivity(v).None? ==>
        config == old(config) && errors == old(errors) && message == old(message)
    {
      var s := SliderSensitivity(v);
      var value := if s.Some? then Some(Text(s.value)) else None;
      HandleChange(SensorSensitivity, value);
    }

    /**
     * Save validates only: nothing is stored. Success clears the errors;
     * failure records the last issue reported on each field (see
     * ErrorsAreFieldMessages).
     */
    method HandleSave()
      modifies this
      ensures config == old(config)
      ensures Valid(config) ==>
        errors == map[] && message == Some(Message(Success, ValidatedText))
      ensures !Valid(config) ==>
        && (forall f :: Lookup(errors, f) == LastMessage(Issues(config), f))
        && message == Some(Message(Failure, FixErrorsText))
    {
      var issues := Issues(config);
      if issues == [] {
        assert Valid(config) by { ParseSucceedsIffValid(config); }
        message := Some(Message(Success, ValidatedText));
        errors := map[];
      } else {
        assert !Valid(config) by { ParseSucceedsIffValid(config); }
        var newErrors := CollectFieldErrors(issues);
        errors := newErrors;
        message := Some(Message(Failure, FixErrorsText));
      }
    }

    /** Reset restores the default settings and clears the errors. */
    method HandleReset()
      modifies this
      ensures config == DefaultAutomation && Valid(config)
      ensures errors == map[]
      ensures message == Some(Message(Success, ResetText))
    {
      config := DefaultAutomation;
      errors := map[];
      message := Some(Message(Success, ResetText));
      DefaultAutomationValid();
    }
  }
}
