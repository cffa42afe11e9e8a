/** useControllableValue (src/hooks/useControllableValue/index.ts): a value
    that the parent controls when its props carry the value property, and
    that the hook keeps in a ref otherwise. The props are their own
    properties, as a map from name to value; `setState` always works with
    the props of the latest render. */
module ControllableValue {
  import opened Js

  type Props = map<string, Value>

  /** The hook's options; an absent name takes its default. */
  datatype Options = Options(
    defaultValue: Value,
    defaultValuePropName: Option<string>,
    valuePropName: Option<string>,
    trigger: Option<string>)

  /** `props[name]`: `undefined` for a property the props lack. */
  function Prop(props: Props, name: string): (v: Value)
    ensures name !in props ==> v == Undefined
    ensures name in props ==> v == props[name]
  {
    if name in props then props[name] else Undefined
  }

  function ValuePropName(options: Options): string {
    options.valuePropName.GetOr("value")
  }

  function DefaultValuePropName(options: Options): string {
    options.defaultValuePropName.GetOr("defaultValue")
  }

  function Trigger(options: Options): string {
    options.trigger.GetOr("onChange")
  }

  /** `isControlled`: the props have their own value property, named
      `value` unless the options say otherwise; a value property that is
      present but `undefined` still controls. */
  predicate IsControlled(props: Props, options: Options) {
    ValuePropName(options) in props
  }

  /** `initialValue`: the controlled value, else the props' own default
      value property, else `options.defaultValue`. */
  function InitialValue(props: Props, options: Options): (r: Value)
    ensures IsControlled(props, options) ==> r == props[ValuePropName(options)]
    ensures !IsControlled(props, options) && DefaultValuePropName(options) in props ==> r == props[DefaultValuePropName(options)]
    ensures !IsControlled(props, options) && DefaultValuePropName(options) !in props ==> r == options.defaultValue
  {
    if IsControlled(props, options) then props[ValuePropName(options)]
    else if DefaultValuePropName(options) in props then props[DefaultValuePropName(options)]
    else options.defaultValue
  }

  /** The precedence of the initial value: while controlled, neither
      default is consulted; while uncontrolled, a default value property in
      the props hides `options.defaultValue`, even when it is `undefined`. */
  lemma InitialPrecedence(props: Props, options: Options, other: Value)
    ensures IsControlled(props, options) ==>
      InitialValue(props, options) == InitialValue(props - {DefaultValuePropName(options)} + map[ValuePropName(options) := props[ValuePropName(options)]], options.(defaultValue := other))
    ensures !IsControlled(props, options) && DefaultValuePropName(options) in props ==>
      InitialValue(props, options) == InitialValue(props, options.(defaultValue := other))
    ensures !IsControlled(props, options) && DefaultValuePropName(options) !in props ==>
      InitialValue(props, options) == options.defaultValue
  {
  }

  /** The argument of `setState`: a value, or a function of the current
      state. */
  datatype Update = Plain(v: Value) | Updater(f: Value -> Value)

  class ControllableValue {
    const options: Options
    /** The props of the latest render. */
    var props: Props
    /** `stateRef.current`. */
    var state: Value

    /** The first render: the ref starts at the initial value, which a
        controlled render then overwrites with the same prop. */
    constructor (props: Props, options: Options)
      ensures this.options == options && this.props == props
      ensures state == InitialValue(props, options)
      ensures IsControlled(props, options) ==> state == props[ValuePropName(options)]
    {
      this.options := options;
      this.props := props;
      state := InitialValue(props, options);
      if IsControlled(props, options) {
        state := props[ValuePropName(options)];
      }
    }

    /** A later render with `props`: controlled, the state is the prop;
        uncontrolled, it stays. The result is the state the component
        shows. */
    method Render(props: Props) returns (value: Value)
      modifies this
      ensures this.props == props
      ensures IsControlled(props, options) ==> state == props[ValuePropName(options)]
      ensures !IsControlled(props, options) ==> state == old(state)
      ensures value == state
    {
      this.props := props;
      if IsControlled(props, options) {
        state := props[ValuePropName(options)];
      }
      value := state;
    }

    /** `setState(v, ...args)`: `r` is `v`, or `v` applied to the current
        state. Uncontrolled, the state becomes `r` and the component is
        asked to render again; controlled, nothing changes. The trigger
        prop, when truthy, is called with `r` followed by `args`. */
    method SetState(v: Update, args: seq<Value>) returns (r: Value, rerender: bool, triggered: Option<seq<Value>>)
      modifies this
      ensures v.Plain? ==> r == v.v
      ensures v.Updater? ==> r == v.f(old(state))
      ensures !IsControlled(props, options) ==> state == r && rerender
      ensures IsControlled(props, options) ==> state == old(state) && !rerender
      ensures Truthy(Prop(props, Trigger(options))) ==> triggered == Some([r] + args)
      ensures !Truthy(Prop(props, Trigger(options))) ==> triggered == None
      ensures props == old(props)
    {
      r := if v.Updater? then v.f(state) else v.v;
      rerender := false;
      if !IsControlled(props, options) {
        state := r;
        rerender := true;
      }
      triggered := None;
      if Truthy(Prop(props, Trigger(options))) {
        triggered := Some([r] + args);
      }
    }
  }

  /** The options with every name at its default. */
  function DefaultOptions(defaultValue: Value): Options {
    Options(defaultValue, None, None, None)
  }

  /** Adds one to a number, and gives 0 for anything else. */
  function Increment(v: Value): Value {
    if v.Num? then Num(v.n + 1) else Num(0)
  }

  /** Uncontrolled, starting from the props' `defaultValue` of 1 over the
      options' 9: `setState(5)` shows 5 on the next render, and the
      function form then gives 6; without `onChange` nothing is called. */
  method Uncontrolled() returns (initial: Value, afterSet: Value, afterUpdate: Value, triggered: Option<seq<Value>>)
    ensures initial == Num(1) && afterSet == Num(5) && afterUpdate == Num(6) && triggered == None
  {
    var props := map["defaultValue" := Num(1)];
    var c := new ControllableValue(props, DefaultOptions(Num(9)));
    initial := c.state;
    var r, rerender;
    r, rerender, triggered := c.SetState(Plain(Num(5)), []);
    afterSet := c.Render(props);
    r, rerender, triggered := c.SetState(Updater(Increment), []);
    afterUpdate := c.Render(props);
  }

  /** Controlled with value 1: `setState(2, "x")` keeps showing 1 and calls
      `onChange(2, "x")`; once the parent passes 2 the component shows 2. */
  method Controlled() returns (afterSet: Value, triggered: Option<seq<Value>>, afterParent: Value)
    ensures afterSet == Num(1) && triggered == Some([Num(2), Str("x")]) && afterParent == Num(2)
  {
    var onChange := Ref(7);
    var props := map["value" := Num(1), "onChange" := onChange];
    var c := new ControllableValue(props, DefaultOptions(Undefined));
    assert Trigger(c.options) == "onChange" && Prop(props, "onChange") == onChange;
    var r, rerender;
    r, rerender, triggered := c.SetState(Plain(Num(2)), [Str("x")]);
    assert [Num(2)] + [Str("x")] == [Num(2), Str("x")];
    afterSet := c.Render(props);
    afterParent := c.Render(map["value" := Num(2), "onChange" := onChange]);
  }
}
