/**
 * The target-aggregates reducer of the web app's state store: a record of
 * three fields; each of the three setter actions replaces exactly one of
 * them, and any other action changes nothing.
 */
module TargetAggregates {
  import opened Wrappers

  /** The reducer's state; `T` is the type of a target aggregate. */
  datatype TargetAggregatesState<T> = TargetAggregatesState(selected: Option<T>, targetAggregates: seq<T>, error: bool)

  /** The state before any action: nothing selected, no aggregates, no error. */
  function InitialState<T>(): TargetAggregatesState<T> {
    TargetAggregatesState(None, [], false)
  }

  /** The actions the reducer distinguishes, each with its payload field; any other action type is `OtherAction`. */
  datatype Action<T> =
    | SetSelectedTargetAggregate(selected: Option<T>)
    | SetTargetAggregates(targetAggregates: seq<T>)
    | SetTargetAggregatesError(error: bool)
    | OtherAction(actionType: string)

  /** The three fields of the state. */
  datatype Field = Selected | Aggregates | Error

  /** The field an action sets, None for an action the reducer ignores. */
  function FieldOf<T>(action: Action<T>): Option<Field> {
    match action
    case SetSelectedTargetAggregate(_) => Some(Selected)
    case SetTargetAggregates(_) => Some(Aggregates)
    case SetTargetAggregatesError(_) => Some(Error)
    case OtherAction(_) => None
  }

  /**
   * The reducer. A missing state is the initial state; each setter replaces
   * its own field from the payload and keeps the other two; any other action
   * returns the state unchanged.
   */
  function Reduce<T>(state: Option<TargetAggregatesState<T>>, action: Action<T>): (r: TargetAggregatesState<T>)
    ensures action.SetSelectedTargetAggregate? ==>
              var base := state.GetOr(InitialState());
              r.selected == action.selected && r.targetAggregates == base.targetAggregates && r.error == base.error
    ensures action.SetTargetAggregates? ==>
              var base := state.GetOr(InitialState());
              r.targetAggregates == action.targetAggregates && r.selected == base.selected && r.error == base.error
    ensures action.SetTargetAggregatesError? ==>
              var base := state.GetOr(InitialState());
              r.error == action.error && r.selected == base.selected && r.targetAggregates == base.targetAggregates
    ensures action.OtherAction? ==> r == state.GetOr(InitialState())
  {
    var current := state.GetOr(InitialState());
    match action
    case SetSelectedTargetAggregate(selected) => current.(selected := selected)
    case SetTargetAggregates(aggregates) => current.(targetAggregates := aggregates)
    case SetTargetAggregatesError(error) => current.(error := error)
    case OtherAction(_) => current
  }

  /** An undefined state is replaced by the initial state before the action applies. */
  lemma UndefinedStateIsInitial<T>(action: Action<T>)
    ensures Reduce(None, action) == Reduce(Some(InitialState()), action)
    ensures action.OtherAction? ==> Reduce(None, action) == TargetAggregatesState(None, [], false)
  {
  }

  /** Applying the same action twice is applying it once. */
  lemma ReduceIdempotent<T>(state: Option<TargetAggregatesState<T>>, action: Action<T>)
    ensures Reduce(Some(Reduce(state, action)), action) == Reduce(state, action)
  {
  }

  /** Actions that set different fields commute. */
  lemma SettersCommute<T>(state: TargetAggregatesState<T>, a: Action<T>, b: Action<T>)
    requires FieldOf(a).Some? && FieldOf(b).Some? && FieldOf(a) != FieldOf(b)
    ensures Reduce(Some(Reduce(Some(state), a)), b) == Reduce(Some(Reduce(Some(state), b)), a)
  {
  }

  /** A later setter of a field overrides an earlier one of the same field. */
  lemma LastSetterWins<T>(state: TargetAggregatesState<T>, a: Action<T>, b: Action<T>)
    requires FieldOf(a).Some? && FieldOf(a) == FieldOf(b)
    ensures Reduce(Some(Reduce(Some(state), a)), b) == Reduce(Some(state), b)
  {
  }
}
