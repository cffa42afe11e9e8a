/** useBoolean (src/hooks/useBoolean/index.ts): useToggle over
    `!!defaultValue` and its negation, with `set` coercing its argument. */
module Boolean {
  import opened Js
  import Toggle

  /** `useToggle(!!defaultValue)`; the default `false` and `undefined` are
      both falsy. */
  function Make(defaultValue: Value): (t: Toggle.Toggle)
    ensures t.defaultValue == Bool(Truthy(defaultValue))
    ensures t.reverseValueOrigin == Bool(!Truthy(defaultValue))
  {
    Toggle.Make(Bool(Truthy(defaultValue)), Undefined)
  }

  /** The actions of useBoolean, each forwarded to useToggle. */
  datatype Action = ToggleAction | SetAction(value: Value) | SetTrue | SetFalse

  /** `toggle` is useToggle's; `set(v)` is `set(!!v)`; `setTrue` and
      `setFalse` are `set(true)` and `set(false)`. */
  function Forward(a: Action): Toggle.Action {
    match a
    case ToggleAction => Toggle.ToggleAction
    case SetAction(v) => Toggle.SetAction(Bool(Truthy(v)))
    case SetTrue => Toggle.SetAction(Bool(true))
    case SetFalse => Toggle.SetAction(Bool(false))
  }

  /** The state after one action: `toggle` negates, `set(v)` gives `!!v`,
      `setTrue` true and `setFalse` false. */
  lemma Actions(defaultValue: Value, c: bool, a: Action)
    ensures var r := Toggle.Apply(Make(defaultValue), Bool(c), Forward(a));
      && (a == ToggleAction ==> r == Bool(!c))
      && (a.SetAction? ==> r == Bool(Truthy(a.value)))
      && (a == SetTrue ==> r == Bool(true))
      && (a == SetFalse ==> r == Bool(false))
  {
  }

  /** The state is a boolean from the start and after any run of actions. */
  lemma {:induction false} AlwaysBoolean(defaultValue: Value, s: Value, actions: seq<Action>)
    requires s.Bool?
    ensures Toggle.Run(Make(defaultValue), s, seq(|actions|, i requires 0 <= i < |actions| => Forward(actions[i]))).Bool?
    ensures Make(defaultValue).defaultValue.Bool?
    decreases |actions|
  {
    var forwarded := seq(|actions|, i requires 0 <= i < |actions| => Forward(actions[i]));
    if actions != [] {
      var next := Toggle.Apply(Make(defaultValue), s, forwarded[0]);
      assert forwarded[1..] == seq(|actions[1..]|, i requires 0 <= i < |actions[1..]| => Forward(actions[1..][i]));
      AlwaysBoolean(defaultValue, next, actions[1..]);
    }
  }
}
