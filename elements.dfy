/** React children as far as the components look at them, and the
    accessibility props a caller may pass to a pressable component. */
module Elements {
  import opened Wrappers

  /** `children`: absent, a string, or some other element. */
  datatype Children = NoChildren | TextChild(text: string) | ElementChild

  /** JavaScript truthiness of `children`: `''` and absence are falsy. */
  predicate TruthyChildren(c: Children) {
    match c
    case NoChildren => false
    case TextChild(t) => t != ""
    case ElementChild => true
  }

  /** `accessibilityState.checked`: `'mixed'` or a boolean. */
  datatype A11yChecked = Mixed | Bool(value: bool)

  /** `accessibilityState`: each key present or absent. */
  datatype A11yState = A11yState(
    disabled: Option<bool>,
    selected: Option<bool>,
    checked: Option<A11yChecked>,
    busy: Option<bool>,
    expanded: Option<bool>)

  const NoState: A11yState := A11yState(None, None, None, None, None)

  /** `accessibilityValue`: each key present or absent. */
  datatype A11yValue = A11yValue(min: Option<real>, max: Option<real>, now: Option<real>, text: Option<string>)

  /** The keys of `BaseAccessibilityProps` the components compute; `None`
      is a key that is not passed. */
  datatype A11yProps = A11yProps(
    accessible: Option<bool>,
    role: Option<string>,
    labelText: Option<string>,
    hint: Option<string>,
    state: Option<A11yState>,
    value: Option<A11yValue>)

  const NoA11y: A11yProps := A11yProps(None, None, None, None, None, None)

  /** The props a `Pressable` ends up with when the component writes its own
      accessibility props and then spreads `{...rest}`: every key the caller
      passed replaces the computed one, wholesale (a caller's
      `accessibilityState` is not merged key by key), and every other key
      keeps its computed value. */
  function SpreadRest(computed: A11yProps, rest: A11yProps): (r: A11yProps)
    ensures rest.accessible.Some? ==> r.accessible == rest.accessible
    ensures rest.role.Some? ==> r.role == rest.role
    ensures rest.labelText.Some? ==> r.labelText == rest.labelText
    ensures rest.hint.Some? ==> r.hint == rest.hint
    ensures rest.state.Some? ==> r.state == rest.state
    ensures rest.value.Some? ==> r.value == rest.value
    ensures rest.accessible.None? ==> r.accessible == computed.accessible
    ensures rest.role.None? ==> r.role == computed.role
    ensures rest.labelText.None? ==> r.labelText == computed.labelText
    ensures rest.hint.None? ==> r.hint == computed.hint
    ensures rest.state.None? ==> r.state == computed.state
    ensures rest.value.None? ==> r.value == computed.value
  {
    A11yProps(rest.accessible.OrElse(computed.accessible), rest.role.OrElse(computed.role),
              rest.labelText.OrElse(computed.labelText), rest.hint.OrElse(computed.hint),
              rest.state.OrElse(computed.state), rest.value.OrElse(computed.value))
  }

  /** Spreading nothing keeps the computed props; spreading the same `rest`
      twice is spreading it once; and a caller who passes every key gets
      exactly their own props. */
  lemma SpreadRestLaws(computed: A11yProps, rest: A11yProps)
    ensures SpreadRest(computed, NoA11y) == computed
    ensures SpreadRest(SpreadRest(computed, rest), rest) == SpreadRest(computed, rest)
    ensures (rest.accessible.Some? && rest.role.Some? && rest.labelText.Some? && rest.hint.Some? &&
             rest.state.Some? && rest.value.Some?) ==> SpreadRest(computed, rest) == rest
  {
  }
}
