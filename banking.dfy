/**
 * The bank-account demo: a pure reducer over `{ balance }` and the guarded
 * action handler that dispatches to it and records the last action.
 * Amounts are whole numbers of cents.
 */
module Banking {
  import opened Wrappers

  /** The reducer's state `{ balance }`. */
  datatype State = State(balance: int)

  /** An action object `{ type, payload }`; `kind` is its `type` string. */
  datatype Action = Action(kind: string, payload: int)

  /** What `lastAction` holds: `{ type, amount }`, or `{ type: "reset" }` with no amount. */
  datatype LastAction = LastAction(kind: string, amount: Option<int>)

  const InitialState := State(0)

  /** A state the account can be in: never overdrawn. */
  predicate Solvent(state: State) {
    state.balance >= 0
  }

  /**
   * `bankingReducer`: deposit adds, withdraw subtracts unless it would
   * overdraw, reset returns the initial state, anything else is a no-op.
   */
  function BankingReducer(state: State, action: Action): (next: State)
    ensures Solvent(state) && (action.kind == "DEPOSIT" ==> action.payload >= 0) ==> Solvent(next)
    ensures action.kind == "WITHDRAW" ==>
              (next == state <==> action.payload > state.balance || action.payload == 0)
  {
    match action.kind
    case "DEPOSIT" => State(state.balance + action.payload)
    case "WITHDRAW" =>
      if state.balance < action.payload then state
      else State(state.balance - action.payload)
    case "RESET" => InitialState
    case _ => state
  }

  lemma DepositAdds(state: State, amount: int)
    ensures BankingReducer(state, Action("DEPOSIT", amount)).balance == state.balance + amount
  {
  }

  lemma OverdraftRejected(state: State, amount: int)
    requires amount > state.balance
    ensures BankingReducer(state, Action("WITHDRAW", amount)) == state
  {
  }

  lemma WithdrawSubtracts(state: State, amount: int)
    requires amount <= state.balance
    ensures BankingReducer(state, Action("WITHDRAW", amount)).balance == state.balance - amount
    ensures Solvent(state) && amount >= 0 ==> Solvent(BankingReducer(state, Action("WITHDRAW", amount)))
  {
  }

  lemma ResetIsIdempotent(state: State, payload: int)
    ensures BankingReducer(state, Action("RESET", payload)) == InitialState
    ensures BankingReducer(BankingReducer(state, Action("RESET", payload)), Action("RESET", payload))
         == BankingReducer(state, Action("RESET", payload))
  {
  }

  lemma UnknownActionIsNoOp(state: State, action: Action)
    requires action.kind != "DEPOSIT" && action.kind != "WITHDRAW" && action.kind != "RESET"
    ensures BankingReducer(state, action) == state
  {
  }

  /** The scenario: deposit 100, withdraw 150 (refused), withdraw 40, reset. */
  lemma DepositWithdrawResetScenario()
    ensures BankingReducer(InitialState, Action("DEPOSIT", 100)) == State(100)
    ensures BankingReducer(State(100), Action("WITHDRAW", 150)) == State(100)
    ensures BankingReducer(State(100), Action("WITHDRAW", 40)) == State(60)
    ensures BankingReducer(State(60), Action("RESET", 0)) == InitialState
  {
  }

  /** The component's state: the reducer state and `lastAction`. */
  datatype View = View(state: State, lastAction: Option<LastAction>)

  const InitialView := View(InitialState, None)

  /** The guards of `handleAction`: when it dispatches at all. */
  predicate Dispatches(state: State, kind: string, payload: int) {
    || (kind == "DEPOSIT" && payload > 0)
    || (kind == "WITHDRAW" && payload > 0 && state.balance >= payload)
    || kind == "RESET"
  }

  /** The record `handleAction` stores for an action it dispatched. */
  function Record(kind: string, payload: int): (r: LastAction)
    requires kind == "DEPOSIT" || kind == "WITHDRAW" || kind == "RESET"
    ensures r.amount.Some? <==> kind != "RESET"
    ensures r.amount.Some? ==> r.amount.value == payload
  {
    match kind
    case "DEPOSIT" => LastAction("deposit", Some(payload))
    case "WITHDRAW" => LastAction("withdraw", Some(payload))
    case _ => LastAction("reset", None)
  }

  /** `handleAction` as one atomic step on the component's state. */
  function HandleStep(v: View, kind: string, payload: int): (w: View)
    ensures Solvent(v.state) ==> Solvent(w.state)
    ensures !Dispatches(v.state, kind, payload) ==> w == v
  {
    if Dispatches(v.state, kind, payload) then
      View(BankingReducer(v.state, Action(kind, payload)), Some(Record(kind, payload)))
    else
      v
  }

  /** Both no-dispatch cases leave balance and `lastAction` as they were. */
  lemma HandleActionRejects(v: View, kind: string, payload: int)
    requires || ((kind == "DEPOSIT" || kind == "WITHDRAW") && payload <= 0)
             || (kind == "WITHDRAW" && payload > v.state.balance)
    ensures HandleStep(v, kind, payload) == v
  {
  }

  /** After a dispatched action the balance is exactly what the reducer's case promises. */
  lemma HandleActionEffect(v: View, kind: string, payload: int)
    requires Dispatches(v.state, kind, payload)
    ensures kind == "DEPOSIT" ==>
              HandleStep(v, kind, payload) == View(State(v.state.balance + payload), Some(LastAction("deposit", Some(payload))))
    ensures kind == "WITHDRAW" ==>
              HandleStep(v, kind, payload) == View(State(v.state.balance - payload), Some(LastAction("withdraw", Some(payload))))
    ensures kind == "RESET" ==>
              HandleStep(v, kind, payload) == View(InitialState, Some(LastAction("reset", None)))
  {
  }

  /** The view after a sequence of button presses, each one `handleAction` call. */
  function Replay(v: View, presses: seq<Action>): View
    decreases |presses|
  {
    if presses == [] then v
    else Replay(HandleStep(v, presses[0].kind, presses[0].payload), presses[1..])
  }

  /** Every reachable balance is non-negative. */
  lemma {:induction false} ReachableBalanceNonNegative(v: View, presses: seq<Action>)
    requires Solvent(v.state)
    ensures Solvent(Replay(v, presses).state)
    decreases |presses|
  {
    if presses != [] {
      ReachableBalanceNonNegative(HandleStep(v, presses[0].kind, presses[0].payload), presses[1..]);
    }
  }

  lemma {:induction false} FromMountBalanceNonNegative(presses: seq<Action>)
    ensures Replay(InitialView, presses).state.balance >= 0
  {
    ReachableBalanceNonNegative(InitialView, presses);
  }

  /** The `BankAccount` component: reducer state and `lastAction`, updated by `handleAction`. */
  class BankAccount {
    var state: State
    var lastAction: Option<LastAction>

    ghost predicate Valid()
      reads this
    {
      Solvent(state)
    }

    constructor ()
      ensures Valid()
      ensures state == InitialState && lastAction == None
    {
      state := InitialState;
      lastAction := None;
    }

    method HandleAction(kind: string, payload: int)
      requires Valid()
      modifies this
      ensures Valid()
      ensures View(state, lastAction) == HandleStep(old(View(state, lastAction)), kind, payload)
    {
      if kind == "DEPOSIT" && payload > 0 {
        state := BankingReducer(state, Action(kind, payload));
        lastAction := Some(Record(kind, payload));
      } else if kind == "WITHDRAW" && payload > 0 && state.balance >= payload {
        state := BankingReducer(state, Action(kind, payload));
        lastAction := Some(Record(kind, payload));
      } else if kind == "RESET" {
        state := BankingReducer(state, Action(kind, payload));
        lastAction := Some(Record(kind, payload));
      }
    }
  }
}
