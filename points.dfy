/**
 * A point: a single instant on the timeline with a label, a colour and an
 * editable flag. Point options arrive as a dynamic option bag; this module
 * fills in defaults, validates the bag, and copies it into the point's own
 * properties.
 */
module Points {
  import opened Wrappers

  /** An option value, as far as the validation rules can tell values apart. */
  datatype Value =
    | Undefined
    | Null
    | Num(n: real)
    | Str(s: string)
    | Bool(b: bool)
      // Any other object; the flag says whether it is a valid linear-gradient colour.
    | Obj(linearGradient: bool)

  /** An option bag: its own properties, keyed by name. */
  type Options = map<string, Value>

  // The value-classifying helpers the source imports, decided by the value's kind.
  predicate IsNullOrUndefined(v: Value) { v.Undefined? || v.Null? }
  predicate IsValidTime(v: Value) { v.Num? }
  predicate IsString(v: Value) { v.Str? }
  predicate IsBoolean(v: Value) { v.Bool? }
  predicate IsLinearGradientColor(v: Value) { v.Obj? && v.linearGradient }

  /** Reading `options.key`: an absent key reads as undefined. */
  function Get(options: Options, key: string): Value {
    if key in options then options[key] else Undefined
  }

  /** `options.time < 0`; only a number can be negative. */
  predicate IsNegative(v: Value) { v.Num? && v.n < 0.0 }

  /** The option names a point stores under an underscore-prefixed property. */
  const PointOptionNames: seq<string> := ["id", "time", "labelText", "color", "editable"]

  /** Option names that would shadow a point's methods or its owner reference. */
  const InvalidOptionNames: seq<string> := ["update", "isVisible", "peaks"]

  /** Each name with an underscore in front. */
  function Underscored(names: seq<string>): (r: seq<string>)
    ensures |r| == |names| && forall i :: 0 <= i < |names| ==> r[i] == "_" + names[i]
  {
    seq(|names|, i requires 0 <= i < |names| => "_" + names[i])
  }

  /** The underscore forms of the point options, reserved for a point's own fields. */
  const PrivateOptionNames: seq<string> := Underscored(PointOptionNames)

  /** `name` is `_` followed by a point option name. */
  predicate IsPrivateName(name: string) {
    |name| > 0 && name[0] == '_' && name[1..] in PointOptionNames
  }

  lemma PrivateNameIff(name: string)
    ensures name in PrivateOptionNames <==> IsPrivateName(name)
  {
    if name in PrivateOptionNames {
      var i :| 0 <= i < |PrivateOptionNames| && PrivateOptionNames[i] == name;
      assert name[1..] == PointOptionNames[i];
    }
    if IsPrivateName(name) {
      var i :| 0 <= i < |PointOptionNames| && PointOptionNames[i] == name[1..];
      assert PrivateOptionNames[i] == name;
    }
  }

  // ---------------------------------------------------------------------
  // Defaults

  /**
   * Fills `labelText`, `editable` and `color` when they are null or undefined
   * (or absent); every other entry of the bag is left as it was.
   */
  function SetDefaultPointOptions(options: Options, pointMarkerColor: Value): (r: Options)
    ensures r.Keys == options.Keys + {"labelText", "editable", "color"}
    ensures IsNullOrUndefined(Get(options, "labelText")) ==> r["labelText"] == Str("")
    ensures !IsNullOrUndefined(Get(options, "labelText")) ==> r["labelText"] == options["labelText"]
    ensures IsNullOrUndefined(Get(options, "editable")) ==> r["editable"] == Bool(false)
    ensures !IsNullOrUndefined(Get(options, "editable")) ==> r["editable"] == options["editable"]
    ensures IsNullOrUndefined(Get(options, "color")) ==> r["color"] == pointMarkerColor
    ensures !IsNullOrUndefined(Get(options, "color")) ==> r["color"] == options["color"]
    ensures forall k :: k in options && k !in {"labelText", "editable", "color"} ==> r[k] == options[k]
  {
    var withLabel := if IsNullOrUndefined(Get(options, "labelText")) then options["labelText" := Str("")] else options;
    var withEditable := if IsNullOrUndefined(Get(withLabel, "editable")) then withLabel["editable" := Bool(false)] else withLabel;
    if IsNullOrUndefined(Get(withEditable, "color")) then withEditable["color" := pointMarkerColor] else withEditable
  }

  /** Filling the defaults twice changes nothing the first pass did not. */
  lemma SetDefaultsIdempotent(options: Options, color: Value)
    ensures SetDefaultPointOptions(SetDefaultPointOptions(options, color), color) == SetDefaultPointOptions(options, color)
  {
    var once := SetDefaultPointOptions(options, color);
    var twice := SetDefaultPointOptions(once, color);
    assert twice.Keys == once.Keys;
    forall k | k in once ensures twice[k] == once[k] {
      if k == "labelText" {
        assert once["labelText"] == Str("") || once["labelText"] == options["labelText"];
      }
    }
  }

  // ---------------------------------------------------------------------
  // Validation

  /** Which public operation is validating: `add()` or `update()`. */
  datatype Context = Add | Update

  /** The exception classes the source throws. */
  datatype ErrorClass = TypeError | RangeError | Error

  /** The failures the validation and the update of a point can report. */
  datatype PointError =
    | TimeNotNumeric(context: Context)
    | TimeNegative(context: Context)
    | LabelTextNotString(context: Context)
    | EditableNotBoolean(context: Context)
    | ColorInvalid(context: Context)
    | InvalidOptionName(context: Context, name: string)
    | IdNotUpdatable

  function ClassOf(e: PointError): ErrorClass {
    match e
    case TimeNegative(_) => RangeError
    case InvalidOptionName(_, _) => Error
    case IdNotUpdatable => Error
    case _ => TypeError
  }

  datatype Outcome = Pass | Fail(error: PointError)

  /**
   * The first name of `names`, in list order, that is a key of `options`
   * (the `forEach` over a deny-list that throws at its first hit).
   */
  function FirstPresent(names: seq<string>, options: Options): (r: Option<string>)
    ensures r.None? <==> forall i :: 0 <= i < |names| ==> names[i] !in options
    ensures r.Some? ==> exists i :: 0 <= i < |names| && names[i] == r.value && r.value in options &&
                                    forall j :: 0 <= j < i ==> names[j] !in options
  {
    if names == [] then None
    else if names[0] in options then Some(names[0])
    else
      var rest := FirstPresent(names[1..], options);
      if rest.Some? then
        ghost var i :| 0 <= i < |names[1..]| && names[1..][i] == rest.value && rest.value in options &&
                       forall j :: 0 <= j < i ==> names[1..][j] !in options;
        assert names[i + 1] == rest.value;
        rest
      else rest
  }

  /** The time rule is enforced on add, and on update only when `time` is given. */
  predicate TimeChecked(options: Options, updating: bool) {
    !updating || "time" in options
  }

  /** The reserved names: the deny-list and the underscore forms of the point's fields. */
  predicate IsReservedName(name: string) {
    name in InvalidOptionNames || IsPrivateName(name)
  }

  /** The two time rules: a numeric time where one is checked, and never a negative one. */
  predicate TimeRulesHold(options: Options, updating: bool) {
    && (TimeChecked(options, updating) ==> IsValidTime(Get(options, "time")))
    && !IsNegative(Get(options, "time"))
  }

  predicate LabelTextRuleHolds(options: Options) {
    "labelText" in options ==> IsString(options["labelText"])
  }

  predicate EditableRuleHolds(options: Options) {
    "editable" in options ==> IsBoolean(options["editable"])
  }

  predicate ColorRuleHolds(options: Options) {
    "color" in options ==> IsString(options["color"]) || IsLinearGradientColor(options["color"])
  }

  /** What a valid option bag is, stated as one conjunction of the rules. */
  predicate AcceptableOptions(options: Options, updating: bool) {
    && TimeRulesHold(options, updating)
    && LabelTextRuleHolds(options)
    && EditableRuleHolds(options)
    && ColorRuleHolds(options)
    && (forall name :: name in options ==> !IsReservedName(name))
  }

  function ContextOf(updating: bool): Context { if updating then Update else Add }

  /**
   * The checks in source order; the first that fails decides the error: a
   * non-numeric time, a negative time, then labelText, editable and color,
   * then the deny-list names in list order, then the underscore forms.
   */
  function ValidatePointOptions(options: Options, updating: bool): (r: Outcome)
    ensures r.Pass? <==> AcceptableOptions(options, updating)
    ensures r.Fail? ==> !r.error.IdNotUpdatable? && r.error.context == ContextOf(updating)
    ensures TimeChecked(options, updating) && !IsValidTime(Get(options, "time")) ==>
              r == Fail(TimeNotNumeric(ContextOf(updating)))
    ensures IsNegative(Get(options, "time")) ==> r == Fail(TimeNegative(ContextOf(updating)))
    ensures TimeRulesHold(options, updating) && !LabelTextRuleHolds(options) ==>
              r == Fail(LabelTextNotString(ContextOf(updating)))
    ensures TimeRulesHold(options, updating) && LabelTextRuleHolds(options) && !EditableRuleHolds(options) ==>
              r == Fail(EditableNotBoolean(ContextOf(updating)))
    ensures TimeRulesHold(options, updating) && LabelTextRuleHolds(options) && EditableRuleHolds(options) &&
            !ColorRuleHolds(options) ==>
              r == Fail(ColorInvalid(ContextOf(updating)))
    ensures TimeRulesHold(options, updating) && LabelTextRuleHolds(options) && EditableRuleHolds(options) &&
            ColorRuleHolds(options) && FirstPresent(InvalidOptionNames, options).Some? ==>
              r == Fail(InvalidOptionName(ContextOf(updating), FirstPresent(InvalidOptionNames, options).value))
    ensures TimeRulesHold(options, updating) && LabelTextRuleHolds(options) && EditableRuleHolds(options) &&
            ColorRuleHolds(options) && FirstPresent(InvalidOptionNames, options).None? &&
            FirstPresent(PrivateOptionNames, options).Some? ==>
              r == Fail(InvalidOptionName(ContextOf(updating), FirstPresent(PrivateOptionNames, options).value))
    ensures r.Fail? && r.error.InvalidOptionName? ==> r.error.name in options && IsReservedName(r.error.name)
  {
    var context := ContextOf(updating);
    if TimeChecked(options, updating) && !IsValidTime(Get(options, "time")) then
      Fail(TimeNotNumeric(context))
    else if IsNegative(Get(options, "time")) then
      Fail(TimeNegative(context))
    else if "labelText" in options && !IsString(options["labelText"]) then
      Fail(LabelTextNotString(context))
    else if "editable" in options && !IsBoolean(options["editable"]) then
      Fail(EditableNotBoolean(context))
    else if "color" in options && !IsString(options["color"]) && !IsLinearGradientColor(options["color"]) then
      Fail(ColorInvalid(context))
    else
      match FirstPresent(InvalidOptionNames, options)
      case Some(name) => Fail(InvalidOptionName(context, name))
      case None =>
        match FirstPresent(PrivateOptionNames, options)
        case Some(name) => PrivateNameIff(name); Fail(InvalidOptionName(context, name))
        case None =>
          assert forall name :: name in options ==> !IsReservedName(name) by {
            forall name | name in options ensures !IsPrivateName(name) { PrivateNameIff(name); }
          }
          Pass
  }

  /** On add, a bag without a numeric time is refused with a TypeError. */
  lemma AddRequiresNumericTime(options: Options)
    requires !IsValidTime(Get(options, "time"))
    ensures ValidatePointOptions(options, false) == Fail(TimeNotNumeric(Add))
    ensures ClassOf(ValidatePointOptions(options, false).error) == TypeError
  {
  }

  /** On update, an absent time is never checked: only the other rules apply. */
  lemma UpdateWithoutTime(options: Options)
    requires "time" !in options
    ensures ValidatePointOptions(options, true).Pass? <==>
              && ("labelText" in options ==> IsString(options["labelText"]))
              && ("editable" in options ==> IsBoolean(options["editable"]))
              && ("color" in options ==> IsString(options["color"]) || IsLinearGradientColor(options["color"]))
              && (forall name :: name in options ==> !IsReservedName(name))
  {
  }

  /**
   * A well-timed bag whose labelText is a number is refused with a TypeError
   * about labelText, not a RangeError.
   */
  lemma LabelTextTypeError()
    ensures var r := ValidatePointOptions(map["time" := Num(1.0), "labelText" := Num(3.0)], false);
            r == Fail(LabelTextNotString(Add)) && ClassOf(r.error) == TypeError
  {
  }

  /** A reserved name in an otherwise valid bag raises a plain Error naming it. */
  lemma ReservedNameError(options: Options, updating: bool)
    requires TimeRulesHold(options, updating) && LabelTextRuleHolds(options)
    requires EditableRuleHolds(options) && ColorRuleHolds(options)
    requires FirstPresent(InvalidOptionNames, options).Some? || FirstPresent(PrivateOptionNames, options).Some?
    ensures var r := ValidatePointOptions(options, updating);
            r.Fail? && r.error.InvalidOptionName? && ClassOf(r.error) == Error
  {
  }

  /** Each reserved name on its own makes an otherwise valid bag invalid. */
  lemma ReservedNameRejected(options: Options, name: string, updating: bool)
    requires name in options && IsReservedName(name)
    ensures ValidatePointOptions(options, updating).Fail?
  {
  }

  // ---------------------------------------------------------------------
  // Copying options into a point

  /** The property an option key is stored under: `_key` for a point option, else the key itself. */
  function Target(key: string): string {
    if key in PointOptionNames then "_" + key else key
  }

  /** Some other key of `options` is stored under the same property as `key`. */
  predicate Contested(options: Options, key: string) {
    || (key in PointOptionNames && "_" + key in options)
    || (|key| > 0 && key[0] == '_' && key[1..] in PointOptionNames && key[1..] in options)
  }

  /** Two distinct keys stored under one property make each other contested. */
  lemma TargetCollision(options: Options, k1: string, k2: string)
    requires k1 in options && k2 in options && k1 != k2 && Target(k1) == Target(k2)
    ensures Contested(options, k1)
  {
    if k1 in PointOptionNames {
      assert k2 == "_" + k1;
    } else {
      assert k1 == "_" + k2;
      assert k1[1..] == k2;
    }
  }

  /** No reserved name means no two keys compete: validation rules out collisions. */
  lemma ValidOptionsUncontested(options: Options, updating: bool)
    requires ValidatePointOptions(options, updating).Pass?
    ensures forall k :: k in options ==> !Contested(options, k)
  {
    forall k | k in options ensures !Contested(options, k) {
      if k in PointOptionNames {
        assert ("_" + k)[1..] == k;
        PrivateNameIff("_" + k);
      }
      PrivateNameIff(k);
    }
  }

  /** The set of properties an option bag writes. */
  function Targets(options: Options): set<string> {
    set k | k in options :: Target(k)
  }

  /** The properties a bag without collisions writes, each holding its option's value. */
  function StoredUserData(options: Options): (r: map<string, Value>)
    requires forall k :: k in options ==> !Contested(options, k)
    ensures r.Keys == Targets(options)
    ensures forall k :: k in options ==> r[Target(k)] == options[k]
  {
    forall k1, k2 | k1 in options && k2 in options && k1 != k2
      ensures Target(k1) != Target(k2)
    {
      if Target(k1) == Target(k2) { TargetCollision(options, k1, k2); }
    }
    map k | k in options :: Target(k) := options[k]
  }

  /** An enumeration of a bag's keys: each key once, nothing else. */
  predicate Enumerates(order: seq<string>, options: Options) {
    && (forall i, j :: 0 <= i < j < |order| ==> order[i] != order[j])
    && (forall k :: k in order ==> k in options)
    && (forall k :: k in options ==> k in order)
  }

  /** The properties after writing the keys of `order`, in that order, into `props`. */
  function WriteAll(props: map<string, Value>, options: Options, order: seq<string>): map<string, Value>
    requires forall k :: k in order ==> k in options
  {
    if order == [] then props
    else
      var last := order[|order| - 1];
      WriteAll(props, options, order[..|order| - 1])[Target(last) := options[last]]
  }

  /** Writing adds exactly the targets of the written keys. */
  lemma {:induction false} WriteAllKeys(props: map<string, Value>, options: Options, order: seq<string>)
    requires forall k :: k in order ==> k in options
    ensures WriteAll(props, options, order).Keys == props.Keys + (set k | k in order :: Target(k))
  {
    if order != [] {
      var init := order[..|order| - 1];
      WriteAllKeys(props, options, init);
      assert order == init + [order[|order| - 1]];
      assert (set k | k in order :: Target(k)) == (set k | k in init :: Target(k)) + {Target(order[|order| - 1])};
    }
  }

  /** A property that no written key targets keeps its value. */
  lemma {:induction false} WriteAllUntouched(props: map<string, Value>, options: Options, order: seq<string>, t: string)
    requires forall k :: k in order ==> k in options
    requires t in props && forall k :: k in order ==> Target(k) != t
    ensures t in WriteAll(props, options, order) && WriteAll(props, options, order)[t] == props[t]
  {
    if order != [] {
      WriteAllUntouched(props, options, order[..|order| - 1], t);
    }
  }

  /** A key that no other written key competes with ends up holding its own value. */
  lemma {:induction false} WriteAllSole(props: map<string, Value>, options: Options, order: seq<string>, k: string)
    requires forall x :: x in order ==> x in options
    requires k in order && forall x :: x in order && x != k ==> Target(x) != Target(k)
    ensures Target(k) in WriteAll(props, options, order) && WriteAll(props, options, order)[Target(k)] == options[k]
  {
    var init := order[..|order| - 1];
    var last := order[|order| - 1];
    if last != k {
      assert order == init + [last];
      WriteAllSole(props, options, init, k);
    }
  }

  /**
   * Without collisions the enumeration order does not matter: every key's
   * value lands under its target and the rest of the object is unchanged.
   */
  lemma WriteAllUncontested(props: map<string, Value>, options: Options, order: seq<string>)
    requires Enumerates(order, options)
    requires forall k :: k in options ==> !Contested(options, k)
    ensures WriteAll(props, options, order) == props + StoredUserData(options)
  {
    var written := WriteAll(props, options, order);
    var stored := StoredUserData(options);
    WriteAllKeys(props, options, order);
    EnumeratedTargets(order, options);
    assert written.Keys == (props + stored).Keys;
    forall t | t in written ensures written[t] == (props + stored)[t] {
      if t in stored {
        var k :| k in options && Target(k) == t;
        WriteAllStored(props, options, order, k);
      } else {
        WriteAllUntouched(props, options, order, t);
      }
    }
  }

  lemma EnumeratedTargets(order: seq<string>, options: Options)
    requires Enumerates(order, options)
    ensures (set k | k in order :: Target(k)) == Targets(options)
  {
  }

  /** Without collisions, a written key's target holds that key's value. */
  lemma WriteAllStored(props: map<string, Value>, options: Options, order: seq<string>, k: string)
    requires Enumerates(order, options)
    requires forall x :: x in options ==> !Contested(options, x)
    requires k in options
    ensures Target(k) in WriteAll(props, options, order) && WriteAll(props, options, order)[Target(k)] == options[k]
  {
    forall x | x in order && x != k ensures Target(x) != Target(k) {
      if Target(x) == Target(k) { TargetCollision(options, k, x); }
    }
    WriteAllSole(props, options, order, k);
  }

  datatype PeaksEvent = PointsUpdate(options: Options)

  datatype UpdateOutcome = Rejected(error: PointError) | Updated(events: seq<PeaksEvent>)

  /** Whether an instant lies in the half-open window [startTime, endTime). */
  predicate TimeVisible(time: Value, startTime: real, endTime: real) {
    time.Num? && time.n >= startTime && time.n < endTime
  }

  /** A point exactly at the window's end is not visible; one at its start is, unless the window is empty. */
  lemma VisibleHalfOpen(startTime: real, endTime: real)
    ensures !TimeVisible(Num(endTime), startTime, endTime)
    ensures TimeVisible(Num(startTime), startTime, endTime) <==> startTime < endTime
  {
  }

  /** Splitting a window at `middle` puts a point in exactly one of the halves. */
  lemma VisibleSplit(time: Value, startTime: real, middle: real, endTime: real)
    requires startTime <= middle <= endTime
    ensures TimeVisible(time, startTime, endTime) <==>
              TimeVisible(time, startTime, middle) || TimeVisible(time, middle, endTime)
    ensures !(TimeVisible(time, startTime, middle) && TimeVisible(time, middle, endTime))
  {
  }

  /** A point: its own properties (`_id`, `_time`, …, user data) as a dictionary. */
  class Point {
    var props: map<string, Value>

    /** `new Point(options)`: keep the owner reference, then copy the bag in. */
    constructor (options: Options)
      ensures exists order :: Enumerates(order, options) &&
                props == WriteAll(map["_peaks" := Get(options, "peaks")], options, order)
      ensures (forall k :: k in options ==> !Contested(options, k)) ==>
                props == map["_peaks" := Get(options, "peaks")] + StoredUserData(options)
    {
      props := map["_peaks" := Get(options, "peaks")];
      new;
      ghost var order := SetUserData(options);
    }

    function Id(): Value reads this { Get(props, "_id") }
    function Time(): Value reads this { Get(props, "_time") }
    function LabelText(): Value reads this { Get(props, "_labelText") }
    function Color(): Value reads this { Get(props, "_color") }
    function Editable(): Value reads this { Get(props, "_editable") }

    /**
     * Copies every key of the bag into the point: a point option `key` goes
     * to `_key`, any other key to itself, in the order the keys are
     * enumerated (returned as `order`; the model does not fix it).
     */
    method SetUserData(options: Options) returns (ghost order: seq<string>)
      modifies this
      ensures Enumerates(order, options)
      ensures props == WriteAll(old(props), options, order)
      ensures (forall k :: k in options ==> !Contested(options, k)) ==>
                props == old(props) + StoredUserData(options)
    {
      var remaining := options.Keys;
      order := [];
      while remaining != {}
        invariant remaining <= options.Keys
        invariant forall i, j :: 0 <= i < j < |order| ==> order[i] != order[j]
        invariant forall k :: k in order <==> k in options && k !in remaining
        invariant props == WriteAll(old(props), options, order)
        decreases remaining
      {
        var key :| key in remaining;
        props := props[Target(key) := options[key]];
        order := order + [key];
        assert order[..|order| - 1] == order[..|order| - 1];
        remaining := remaining - {key};
      }
      if forall k :: k in options ==> !Contested(options, k) {
        WriteAllUncontested(old(props), options, order);
      }
    }

    /**
     * `update(options)`: refuses a bag that names `id` before anything
     * changes, then validates, then writes the bag and emits one
     * `points.update`.
     */
    method Update(options: Options) returns (r: UpdateOutcome)
      modifies this
      ensures "id" in options ==> r == Rejected(IdNotUpdatable) && props == old(props)
      ensures "id" !in options && ValidatePointOptions(options, true).Fail? ==>
                r == Rejected(ValidatePointOptions(options, true).error) && props == old(props)
      ensures "id" !in options && ValidatePointOptions(options, true).Pass? ==>
                (forall k :: k in options ==> !Contested(options, k)) &&
                r == Updated([PointsUpdate(options)]) && props == old(props) + StoredUserData(options)
    {
      if "id" in options {
        return Rejected(IdNotUpdatable);
      }
      var check := ValidatePointOptions(options, true);
      if check.Fail? {
        return Rejected(check.error);
      }
      ValidOptionsUncontested(options, true);
      ghost var order := SetUserData(options);
      r := Updated([PointsUpdate(options)]);
    }

    /** `isVisible(startTime, endTime)`: the point's time lies in [startTime, endTime). */
    function IsVisible(startTime: real, endTime: real): (r: bool)
      reads this
      ensures r ==> Time().Num? && startTime <= Time().n < endTime
      ensures Time().Num? && Time().n == endTime ==> !r
    {
      TimeVisible(Time(), startTime, endTime)
    }

    /** `_setTime(time)`: overwrites the time and nothing else. */
    method SetTime(time: real)
      modifies this
      ensures props == old(props)["_time" := Num(time)]
      ensures Time() == Num(time)
    {
      props := props["_time" := Num(time)];
    }
  }
}
