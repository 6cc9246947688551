/**
 * The game state: balance and bet with their checked mutators, the spin
 * lifecycle kept by an embedded state machine, and the observers told of
 * every change.
 *
 * Each mutator is specified by a function on the `GameData` snapshot that
 * returns the new snapshot and the changes it announces, in order, or the
 * error the source throws; the lemmas are stated on those functions.
 */
module Game {
  import opened Types
  import opened Observers
  import opened Fsm

  datatype Status = Idle | Spinning | Evaluating | ShowingWin

  /** The lifecycle's transition table. */
  const Lifecycle: TransitionTable<Status> := map[
    Idle := [Spinning],
    Spinning := [Evaluating],
    Evaluating := [ShowingWin, Idle],
    ShowingWin := [Idle]
  ]

  /** The only moves: idle to spinning, spinning to evaluating, evaluating to a win or to idle, a win to idle. */
  lemma LifecycleMeaning(from: Status, to: Status)
    ensures Allows(Lifecycle, from, to) <==>
      || (from == Idle && to == Spinning)
      || (from == Spinning && to == Evaluating)
      || (from == Evaluating && (to == ShowingWin || to == Idle))
      || (from == ShowingWin && to == Idle)
  {
  }

  /** The errors the game state throws, one constructor per message. */
  datatype GameError =
    | AmountNegative            // "Amount must be positive"
    | InsufficientBalance       // "Insufficient balance"
    | BalanceNegative           // "Balance cannot be negative"
    | BetNotPositive            // "Bet must be greater than zero"
    | BetExceedsBalance         // "Bet cannot exceed balance"
    | CannotPlaceBet            // "Cannot place bet in current state"
    | TransitionRefused(from: Status, to: Status)  // "Invalid transition: from -> to"

  /** `getData`: the snapshot of balance, bet and lifecycle state. */
  datatype GameData = GameData(balance: int, bet: int, currentState: Status)

  /** A change the game state announces. */
  datatype Change = BalanceChange(balance: int) | BetChange(bet: int) | StateChange(from: Status, to: Status)

  /** What a game observer's `onBalanceChange`, `onBetChange` or `onStateChange` receives. */
  datatype GameEvent = BalanceChanged(balance: int) | BetChanged(bet: int) | StateChanged(state: Status)

  function EventOf(c: Change): GameEvent
  {
    match c
    case BalanceChange(b) => BalanceChanged(b)
    case BetChange(b) => BetChanged(b)
    case StateChange(_, to) => StateChanged(to)
  }

  /** The calls the game observers receive for a list of changes: each change to every observer, change by change. */
  function ObserverCalls(obs: seq<ObserverId>, changes: seq<Change>): seq<Call<GameEvent>>
  {
    if |changes| == 0 then []
    else ObserverCalls(obs, changes[..|changes| - 1]) + Announce(obs, EventOf(changes[|changes| - 1]))
  }

  /** The game state's own subscription to its state machine. */
  const Bridge: ObserverId := 0

  /** The calls the state machine makes on the bridge: one per state change. */
  function BridgeCalls(changes: seq<Change>): seq<Call<Transition<Status>>>
  {
    if |changes| == 0 then []
    else
      var c := changes[|changes| - 1];
      BridgeCalls(changes[..|changes| - 1]) + (if c.StateChange? then [Call(Bridge, Transition(c.from, c.to))] else [])
  }

  lemma ObserverCallsAppend(obs: seq<ObserverId>, a: seq<Change>, b: seq<Change>)
    ensures ObserverCalls(obs, a + b) == ObserverCalls(obs, a) + ObserverCalls(obs, b)
    decreases |b|
  {
    if |b| > 0 {
      assert (a + b)[..|a + b| - 1] == a + b[..|b| - 1];
      ObserverCallsAppend(obs, a, b[..|b| - 1]);
    } else {
      assert a + b == a;
    }
  }

  lemma BridgeCallsAppend(a: seq<Change>, b: seq<Change>)
    ensures BridgeCalls(a + b) == BridgeCalls(a) + BridgeCalls(b)
    decreases |b|
  {
    if |b| > 0 {
      assert (a + b)[..|a + b| - 1] == a + b[..|b| - 1];
      BridgeCallsAppend(a, b[..|b| - 1]);
    } else {
      assert a + b == a;
    }
  }

  /** A single change is announced once to every observer, and to the bridge when it is a state change. */
  lemma SingleChangeCalls(obs: seq<ObserverId>, c: Change)
    ensures ObserverCalls(obs, [c]) == Announce(obs, EventOf(c))
    ensures BridgeCalls([c]) == if c.StateChange? then [Call(Bridge, Transition(c.from, c.to))] else []
  {
    assert [c][..0] == [];
  }

  /** A new snapshot and the changes announced on the way to it. */
  datatype Effect = Effect(data: GameData, changes: seq<Change>)

  /** The effect of `first` followed by `second`. */
  function Then(first: Effect, second: Effect): Effect
  {
    Effect(second.data, first.changes + second.changes)
  }

  /** The calls of two effects in a row are the calls of the first, then those of the second. */
  lemma ThenCalls(obs: seq<ObserverId>, first: Effect, second: Effect)
    ensures ObserverCalls(obs, Then(first, second).changes) == ObserverCalls(obs, first.changes) + ObserverCalls(obs, second.changes)
    ensures BridgeCalls(Then(first, second).changes) == BridgeCalls(first.changes) + BridgeCalls(second.changes)
  {
    ObserverCallsAppend(obs, first.changes, second.changes);
    BridgeCallsAppend(first.changes, second.changes);
  }

  /** What an effect acts on: the snapshot, the game observers, and the calls made so far on them and on the bridge. */
  datatype Snapshot = Snapshot(data: GameData, observers: seq<ObserverId>, events: seq<Call<GameEvent>>, log: seq<Call<Transition<Status>>>)

  /** `after` is `before` with the effect applied. */
  predicate Reaches(before: Snapshot, e: Effect, after: Snapshot)
  {
    && after.data == e.data
    && after.observers == before.observers
    && after.events == before.events + ObserverCalls(before.observers, e.changes)
    && after.log == before.log + BridgeCalls(e.changes)
  }

  /** Two effects applied one after the other are their composition applied at once. */
  lemma ReachesThen(s0: Snapshot, first: Effect, s1: Snapshot, second: Effect, s2: Snapshot)
    requires Reaches(s0, first, s1) && Reaches(s1, second, s2)
    ensures Reaches(s0, Then(first, second), s2)
  {
    ThenCalls(s0.observers, first, second);
  }

  /** `updateBalance`: unchecked, adds any signed amount and announces the new balance. */
  function UpdateSpec(d: GameData, amount: int): Effect
  {
    var balance := d.balance + amount;
    Effect(d.(balance := balance), [BalanceChange(balance)])
  }

  function IncreaseSpec(d: GameData, amount: int): Result<Effect, GameError>
  {
    if amount < 0 then Err(AmountNegative) else Ok(UpdateSpec(d, amount))
  }

  function DecreaseSpec(d: GameData, amount: int): Result<Effect, GameError>
  {
    if amount < 0 then Err(AmountNegative)
    else if d.balance < amount then Err(InsufficientBalance)
    else Ok(UpdateSpec(d, -amount))
  }

  function SetBalanceSpec(d: GameData, newBalance: int): Result<Effect, GameError>
  {
    if newBalance < 0 then Err(BalanceNegative)
    else Ok(Effect(d.(balance := newBalance), [BalanceChange(newBalance)]))
  }

  function SetBetSpec(d: GameData, newBet: int): Result<Effect, GameError>
  {
    if newBet <= 0 then Err(BetNotPositive)
    else if newBet > d.balance then Err(BetExceedsBalance)
    else Ok(Effect(d.(bet := newBet), [BetChange(newBet)]))
  }

  /** `canPlaceBet`: idle, and the balance covers the bet. */
  predicate CanPlaceBetIn(d: GameData)
  {
    d.currentState == Idle && d.balance >= d.bet
  }

  function DeductSpec(d: GameData): Result<Effect, GameError>
  {
    if !CanPlaceBetIn(d) then Err(CannotPlaceBet) else Ok(UpdateSpec(d, -d.bet))
  }

  /** `setState`: a move the lifecycle allows, announced with the old and new state; any other move throws. */
  function SetStateSpec(d: GameData, to: Status): Result<Effect, GameError>
  {
    if !Allows(Lifecycle, d.currentState, to) then Err(TransitionRefused(d.currentState, to))
    else Ok(Effect(d.(currentState := to), [StateChange(d.currentState, to)]))
  }

  /**
   * The balance mutators: a negative amount is refused by both, a decrease
   * beyond the balance is refused, and otherwise the balance moves by exactly
   * the amount, the bet and state stay, and the one change announced is the
   * new balance.
   */
  lemma BalanceMutators(d: GameData, amount: int)
    ensures amount < 0 ==> IncreaseSpec(d, amount) == Err(AmountNegative) && DecreaseSpec(d, amount) == Err(AmountNegative)
    ensures 0 <= amount && d.balance < amount ==> DecreaseSpec(d, amount) == Err(InsufficientBalance)
    ensures IncreaseSpec(d, amount).Ok? <==> amount >= 0
    ensures DecreaseSpec(d, amount).Ok? <==> 0 <= amount <= d.balance
    ensures var r := IncreaseSpec(d, amount);
      r.Ok? ==> r.value.data == GameData(d.balance + amount, d.bet, d.currentState) && r.value.changes == [BalanceChange(d.balance + amount)]
    ensures var r := DecreaseSpec(d, amount);
      r.Ok? ==> r.value.data == GameData(d.balance - amount, d.bet, d.currentState) && r.value.changes == [BalanceChange(d.balance - amount)]
  {
  }

  /**
   * From a non-negative balance, a decrease undoes an increase of the same
   * amount. (From a negative balance the decrease can be refused.)
   */
  lemma IncreaseThenDecrease(d: GameData, amount: int)
    requires d.balance >= 0 && amount >= 0
    ensures IncreaseSpec(d, amount).Ok?
    ensures DecreaseSpec(IncreaseSpec(d, amount).value.data, amount).Ok?
    ensures DecreaseSpec(IncreaseSpec(d, amount).value.data, amount).value.data == d
  {
  }

  /**
   * The checked mutators never make a non-negative balance negative; only
   * the unchecked `updateBalance` can.
   */
  lemma CheckedMutatorsKeepBalance(d: GameData, amount: int, to: Status)
    requires d.balance >= 0
    ensures IncreaseSpec(d, amount).Ok? ==> IncreaseSpec(d, amount).value.data.balance >= 0
    ensures DecreaseSpec(d, amount).Ok? ==> DecreaseSpec(d, amount).value.data.balance >= 0
    ensures SetBalanceSpec(d, amount).Ok? ==> SetBalanceSpec(d, amount).value.data.balance >= 0
    ensures SetBetSpec(d, amount).Ok? ==> SetBetSpec(d, amount).value.data.balance >= 0
    ensures DeductSpec(d).Ok? ==> DeductSpec(d).value.data.balance >= 0
    ensures SetStateSpec(d, to).Ok? ==> SetStateSpec(d, to).value.data.balance >= 0
    ensures d.balance < 1 ==> UpdateSpec(d, -1).data.balance < 0
  {
  }

  /**
   * `setBalance` refuses a negative value and otherwise sets the balance
   * outright; `setBet` refuses a bet that is not positive, then one beyond
   * the balance, and otherwise keeps a bet within the balance.
   */
  lemma SetterMeaning(d: GameData, v: int)
    ensures SetBalanceSpec(d, v).Ok? <==> v >= 0
    ensures SetBalanceSpec(d, v).Ok? ==> SetBalanceSpec(d, v).value.data == GameData(v, d.bet, d.currentState)
    ensures v <= 0 ==> SetBetSpec(d, v) == Err(BetNotPositive)
    ensures v > 0 && v > d.balance ==> SetBetSpec(d, v) == Err(BetExceedsBalance)
    ensures SetBetSpec(d, v).Ok? <==> 0 < v <= d.balance
    ensures SetBetSpec(d, v).Ok? ==>
      && SetBetSpec(d, v).value.data == GameData(d.balance, v, d.currentState)
      && 0 < SetBetSpec(d, v).value.data.bet <= SetBetSpec(d, v).value.data.balance
  {
  }

  /** `deductBet` succeeds exactly when a bet can be placed, and then takes exactly the bet. */
  lemma DeductMeaning(d: GameData)
    ensures DeductSpec(d).Ok? <==> CanPlaceBetIn(d)
    ensures !CanPlaceBetIn(d) ==> DeductSpec(d) == Err(CannotPlaceBet)
    ensures DeductSpec(d).Ok? ==>
      DeductSpec(d).value.data == GameData(d.balance - d.bet, d.bet, Idle) && DeductSpec(d).value.data.balance >= 0
  {
  }

  /** The balance check of `canPlaceBet` is `decreaseBalance`'s own check when the bet is not negative. */
  lemma CanPlaceBetMatchesDecrease(d: GameData)
    requires d.currentState == Idle && d.bet >= 0
    ensures CanPlaceBetIn(d) <==> DecreaseSpec(d, d.bet).Ok?
  {
  }

  /** A lifecycle move changes only the state, and a refused move names both states. */
  lemma SetStateMeaning(d: GameData, to: Status)
    ensures SetStateSpec(d, to).Ok? <==> Allows(Lifecycle, d.currentState, to)
    ensures SetStateSpec(d, to).Err? ==> SetStateSpec(d, to).error == TransitionRefused(d.currentState, to)
    ensures SetStateSpec(d, to).Ok? ==>
      SetStateSpec(d, to).value.data == GameData(d.balance, d.bet, to) &&
      SetStateSpec(d, to).value.changes == [StateChange(d.currentState, to)]
  {
  }

  /** From idle, the lifecycle runs spinning, evaluating, a win and idle again, and no state moves to itself. */
  lemma LifecycleRound(d: GameData)
    requires d.currentState == Idle
    ensures var a := SetStateSpec(d, Spinning);
      && a.Ok?
      && SetStateSpec(a.value.data, Spinning).Err?
      && SetStateSpec(a.value.data, Idle) == Err(TransitionRefused(Spinning, Idle))
      && var b := SetStateSpec(a.value.data, Evaluating);
      && b.Ok?
      && var c := SetStateSpec(b.value.data, ShowingWin);
      && c.Ok?
      && var e := SetStateSpec(c.value.data, Idle);
      && e.Ok? && e.value.data == d
    ensures forall s :: !Allows(Lifecycle, s, s)
  {
  }

  class GameState {
    var balance: int
    var bet: int
    const fsm: FiniteStateMachine<Status>
    var observers: seq<ObserverId>
    /** Every call made on the game observers so far, in order. */
    var events: seq<Call<GameEvent>>

    /** The embedded machine runs the lifecycle table with the bridge as its only observer. */
    ghost predicate Valid()
      reads this, fsm
    {
      && fsm.transitions == Lifecycle
      && fsm.observers == [Bridge]
      && NoDuplicates(observers)
    }

    ghost function Data(): GameData
      reads this, fsm
    {
      GameData(balance, bet, fsm.currentState)
    }

    ghost function Snap(): Snapshot
      reads this, fsm
    {
      Snapshot(Data(), observers, events, fsm.log)
    }

    /** Applying an effect: the new snapshot, each change sent to every observer, each state change to the bridge. */
    twostate predicate Applied(new e: Effect)
      reads this, fsm
    {
      && Data() == e.data
      && observers == old(observers)
      && events == old(events) + ObserverCalls(observers, e.changes)
      && fsm.log == old(fsm.log) + BridgeCalls(e.changes)
    }

    /** The outcome of a checked mutator: its error leaves everything as it was, its effect is applied. */
    twostate predicate Performed(new e: Option<GameError>, new spec: Result<Effect, GameError>)
      reads this, fsm
    {
      && (spec.Err? ==> e == Some(spec.error) && Applied(Effect(old(Data()), [])))
      && (spec.Ok? ==> e == None && Applied(spec.value))
    }

    /** The constructor checks nothing: any balance and bet are taken as given. */
    constructor (initialBalance: int, initialBet: int)
      ensures Valid() && fresh(fsm)
      ensures Data() == GameData(initialBalance, initialBet, Idle)
      ensures observers == [] && events == [] && fsm.log == []
    {
      balance := initialBalance;
      bet := initialBet;
      observers := [];
      events := [];
      var machine := new FiniteStateMachine<Status>(Idle, Lifecycle);
      machine.Subscribe(Bridge);
      fsm := machine;
    }

    method GetState() returns (s: Status)
      ensures s == fsm.currentState
    {
      s := fsm.GetState();
    }

    method GetBalance() returns (b: int)
      ensures b == balance
    {
      b := balance;
    }

    method GetBet() returns (b: int)
      ensures b == bet
    {
      b := bet;
    }

    method GetData() returns (d: GameData)
      ensures d == Data()
    {
      var s := fsm.GetState();
      d := GameData(balance, bet, s);
    }

    method CanTransitionTo(s: Status) returns (b: bool)
      requires Valid()
      ensures b <==> Allows(Lifecycle, fsm.currentState, s)
    {
      b := fsm.CanTransitionTo(s);
    }

    /**
     * `setState`: the machine's checked transition; its one observer, the
     * game state itself, then tells every game observer the new state.
     */
    method SetState(newState: Status) returns (r: Result<bool, GameError>)
      requires Valid()
      modifies this, fsm
      ensures Valid()
      ensures var spec := SetStateSpec(old(Data()), newState);
        && (spec.Err? ==> r == Err(spec.error) && Applied(Effect(old(Data()), [])))
        && (spec.Ok? ==> r == Ok(true) && Applied(spec.value))
    {
      SingleChangeCalls(observers, StateChange(fsm.currentState, newState));
      var t := fsm.TransitionTo(newState);
      if t.Err? {
        assert fsm.log == old(fsm.log) + BridgeCalls([]);
        return Err(TransitionRefused(t.error.from, t.error.to));
      }
      NotifyChange(StateChanged(newState));
      r := Ok(t.value);
    }

    /** `updateBalance`: unchecked. */
    method UpdateBalance(amount: int)
      requires Valid()
      modifies this
      ensures Valid() && Applied(UpdateSpec(old(Data()), amount))
    {
      balance := balance + amount;
      NotifyChange(BalanceChanged(balance));
      SingleChangeCalls(observers, BalanceChange(balance));
    }

    method IncreaseBalance(amount: int) returns (e: Option<GameError>)
      requires Valid()
      modifies this
      ensures Valid() && Performed(e, IncreaseSpec(old(Data()), amount))
    {
      if amount < 0 {
        return Some(AmountNegative);
      }
      UpdateBalance(amount);
      e := None;
    }

    method DecreaseBalance(amount: int) returns (e: Option<GameError>)
      requires Valid()
      modifies this
      ensures Valid() && Performed(e, DecreaseSpec(old(Data()), amount))
    {
      if amount < 0 {
        return Some(AmountNegative);
      }
      if balance < amount {
        return Some(InsufficientBalance);
      }
      UpdateBalance(-amount);
      e := None;
    }

    method SetBalance(newBalance: int) returns (e: Option<GameError>)
      requires Valid()
      modifies this
      ensures Valid() && Performed(e, SetBalanceSpec(old(Data()), newBalance))
    {
      if newBalance < 0 {
        return Some(BalanceNegative);
      }
      balance := newBalance;
      NotifyChange(BalanceChanged(balance));
      SingleChangeCalls(observers, BalanceChange(newBalance));
      e := None;
    }

    method SetBet(newBet: int) returns (e: Option<GameError>)
      requires Valid()
      modifies this
      ensures Valid() && Performed(e, SetBetSpec(old(Data()), newBet))
    {
      if newBet <= 0 {
        return Some(BetNotPositive);
      }
      if newBet > balance {
        return Some(BetExceedsBalance);
      }
      bet := newBet;
      NotifyChange(BetChanged(bet));
      SingleChangeCalls(observers, BetChange(newBet));
      e := None;
    }

    method CanPlaceBet() returns (b: bool)
      ensures b <==> CanPlaceBetIn(Data())
    {
      var s := fsm.GetState();
      b := s == Idle && balance >= bet;
    }

    method DeductBet() returns (e: Option<GameError>)
      requires Valid()
      modifies this
      ensures Valid() && Performed(e, DeductSpec(old(Data())))
    {
      var ok := CanPlaceBet();
      if !ok {
        return Some(CannotPlaceBet);
      }
      UpdateBalance(-bet);
      e := None;
    }

    method Subscribe(o: ObserverId)
      requires Valid()
      modifies this
      ensures Valid()
      ensures observers == Subscribed(old(observers), o)
      ensures Data() == old(Data()) && events == old(events)
    {
      SubscribedMeaning(observers, o);
      if o !in observers {
        observers := observers + [o];
      }
    }

    method Unsubscribe(o: ObserverId)
      requires Valid()
      modifies this
      ensures Valid()
      ensures observers == Unsubscribed(old(observers), o)
      ensures Data() == old(Data()) && events == old(events)
    {
      UnsubscribedMeaning(observers, o);
      observers := Unsubscribed(observers, o);
    }

    /** `notifyBalanceChange`, `notifyBetChange` and `notifyStateChange`: one call per observer, in order. */
    method NotifyChange(event: GameEvent)
      modifies this
      ensures balance == old(balance) && bet == old(bet) && observers == old(observers)
      ensures events == old(events) + Announce(observers, event)
    {
      for k := 0 to |observers|
        invariant balance == old(balance) && bet == old(bet) && observers == old(observers)
        invariant events == old(events) + Announce(observers[..k], event)
      {
        assert Announce(observers[..k + 1], event) == Announce(observers[..k], event) + [Call(observers[k], event)];
        events := events + [Call(observers[k], event)];
      }
      assert observers[..|observers|] == observers;
    }
  }
}
