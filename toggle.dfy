/** useToggle (src/hooks/useToggle/index.ts): a state that switches between a
    left value, `defaultValue`, and a right value, `reverseValue` or the
    negation of `defaultValue`. Each action computes the next state from the
    current one; `===` is modelled as equality of values. */
module Toggle {
  import opened Js

  /** The two values the actions switch between. */
  datatype Toggle = Toggle(defaultValue: Value, reverseValueOrigin: Value)

  /** `useToggle(defaultValue = false, reverseValue?)`: an `undefined`
      argument takes the default, and a missing `reverseValue` becomes
      `!defaultValue`. */
  function Make(defaultValue: Value, reverseValue: Value): (t: Toggle)
    ensures defaultValue != Undefined ==> t.defaultValue == defaultValue
    ensures defaultValue == Undefined ==> t.defaultValue == Bool(false)
    ensures reverseValue != Undefined ==> t.reverseValueOrigin == reverseValue
    ensures reverseValue == Undefined ==> t.reverseValueOrigin == Bool(!Truthy(t.defaultValue))
  {
    var d := if defaultValue == Undefined then Bool(false) else defaultValue;
    Toggle(d, if reverseValue == Undefined then Bool(!Truthy(d)) else reverseValue)
  }

  /** The actions of the hook. */
  datatype Action = ToggleAction | SetAction(value: Value) | SetLeft | SetRight

  /** The state after one action, given the current state `s`. */
  function Apply(t: Toggle, s: Value, a: Action): (r: Value)
    ensures a == ToggleAction && s == t.defaultValue ==> r == t.reverseValueOrigin
    ensures a == ToggleAction && s != t.defaultValue ==> r == t.defaultValue
    ensures a.SetAction? ==> r == a.value
    ensures a == SetLeft ==> r == t.defaultValue
    ensures a == SetRight ==> r == t.reverseValueOrigin
  {
    match a
    case ToggleAction => if s == t.defaultValue then t.reverseValueOrigin else t.defaultValue
    case SetAction(v) => v
    case SetLeft => t.defaultValue
    case SetRight => t.reverseValueOrigin
  }

  /** The state after a run of actions from `s`. */
  function Run(t: Toggle, s: Value, actions: seq<Action>): Value
    decreases |actions|
  {
    if actions == [] then s else Run(t, Apply(t, s, actions[0]), actions[1..])
  }

  /** Toggling twice from the left value comes back to it, even when the
      two values coincide. */
  lemma ToggleTwice(t: Toggle)
    ensures Apply(t, Apply(t, t.defaultValue, ToggleAction), ToggleAction) == t.defaultValue
  {
  }

  /** Without `set`, the state never leaves the two values. */
  lemma {:induction false} StaysOnTwoValues(t: Toggle, s: Value, actions: seq<Action>)
    requires s == t.defaultValue || s == t.reverseValueOrigin
    requires forall i | 0 <= i < |actions| :: !actions[i].SetAction?
    ensures Run(t, s, actions) == t.defaultValue || Run(t, s, actions) == t.reverseValueOrigin
    decreases |actions|
  {
    if actions != [] {
      StaysOnTwoValues(t, Apply(t, s, actions[0]), actions[1..]);
    }
  }

  /** With two different values, `n` toggles from the start land on the
      right value exactly when `n` is odd. */
  lemma {:induction false} TogglesAlternate(t: Toggle, n: nat)
    requires t.defaultValue != t.reverseValueOrigin
    ensures Run(t, t.defaultValue, seq(n, _ => ToggleAction)) == (if n % 2 == 0 then t.defaultValue else t.reverseValueOrigin)
  {
    if n > 0 {
      TogglesAlternateFrom(t, t.defaultValue, n);
    }
  }

  lemma {:induction false} TogglesAlternateFrom(t: Toggle, s: Value, n: nat)
    requires t.defaultValue != t.reverseValueOrigin && (s == t.defaultValue || s == t.reverseValueOrigin)
    ensures Run(t, s, seq(n, _ => ToggleAction)) == (if n % 2 == 0 then s else if s == t.defaultValue then t.reverseValueOrigin else t.defaultValue)
    decreases n
  {
    if n > 0 {
      var toggles := seq(n, _ => ToggleAction);
      assert toggles[0] == ToggleAction && toggles[1..] == seq(n - 1, _ => ToggleAction);
      TogglesAlternateFrom(t, Apply(t, s, ToggleAction), n - 1);
    }
  }

  /** With a boolean left value and no right value, `toggle` negates any
      boolean state. */
  lemma BooleanToggleNegates(b: bool, c: bool)
    ensures Apply(Make(Bool(b), Undefined), Bool(c), ToggleAction) == Bool(!c)
  {
  }
}
