/**
 * The game controller: one spin cycle (guards, the move to spinning, the
 * debit, the provider's result, the move to evaluating, the credit, the move
 * to a win or back to idle, the bet clamp, and the recovery of a failure),
 * the end of the win presentation, and the bet and spin queries.
 *
 * `spin` waits once, for the provider. The model splits it there:
 * `BeginSpin` runs up to the wait and `SettleSpin` runs from the provider's
 * outcome (`None` for a failed provider call) to the end; `Spin` is both in
 * a row. Each phase is specified by a function on the `GameData` snapshot.
 */
module Controller {
  import opened Types
  import opened Observers
  import opened Fsm
  import opened Game

  /** What the `spin` promise settles to: `null`, the provider's result, or a rejection with an error. */
  datatype Reply = Null | Value(result: SpinResult) | Thrown(error: GameError)

  /** How a phase ends, with the effect it had. */
  datatype Ending = Ending(reply: Reply, eff: Effect)

  /** How the first phase ends: the whole call, or the wait for the provider with the debited bet. */
  datatype BeginOutcome = Finished(reply: Reply) | Awaiting(bet: int)

  datatype Phase = Phase(outcome: BeginOutcome, eff: Effect)

  /** The catch block from snapshot `d`: the checked move to idle; when that is refused, the call rejects with its error. */
  function Recover(d: GameData): Ending
  {
    match SetStateSpec(d, Idle)
    case Err(e) => Ending(Thrown(e), Effect(d, []))
    case Ok(idle) => Ending(Null, idle)
  }

  /** The effect `before`, then the ending `end`. */
  function After(before: Effect, end: Ending): Ending
  {
    Ending(end.reply, Then(before, end.eff))
  }

  /** `spin` up to the wait: both guards, the move to spinning and the debit of the bet. */
  function BeginSpec(d: GameData): Phase
  {
    if d.currentState != Idle then Phase(Finished(Null), Effect(d, []))
    else if !CanPlaceBetIn(d) then Phase(Finished(Null), Effect(d, []))
    else match SetStateSpec(d, Spinning)
      case Err(_) =>
        var r := Recover(d);
        Phase(Finished(r.reply), r.eff)
      case Ok(spinning) =>
        match DecreaseSpec(spinning.data, spinning.data.bet)
        case Err(_) =>
          var r := After(spinning, Recover(spinning.data));
          Phase(Finished(r.reply), r.eff)
        case Ok(debit) => Phase(Awaiting(spinning.data.bet), Then(spinning, debit))
  }

  /** The branch of the try block after evaluation starts: its effect, and whether one of its calls threw. */
  datatype Try = Done(eff: Effect) | Failed(eff: Effect)

  /** A win is credited and shown; no win goes back to idle. */
  function PayoutSpec(d: GameData, totalWin: int): Try
  {
    if totalWin > 0 then
      match IncreaseSpec(d, totalWin)
      case Err(_) => Failed(Effect(d, []))
      case Ok(credit) =>
        match SetStateSpec(credit.data, ShowingWin)
        case Err(_) => Failed(credit)
        case Ok(shown) => Done(Then(credit, shown))
    else
      match SetStateSpec(d, Idle)
      case Err(_) => Failed(Effect(d, []))
      case Ok(idle) => Done(idle)
  }

  /** `max(10, floor(balance / 10) * 10)` for a positive balance. */
  function ClampedBet(balance: int): int
    requires balance > 0
  {
    var rounded := (balance / 10) * 10;
    if rounded > 10 then rounded else 10
  }

  /** `clampBetToBalance`: a bet above a positive balance is set to the clamped value, through the checked `setBet`. */
  function ClampSpec(d: GameData): Result<Effect, GameError>
  {
    if d.bet > d.balance && d.balance > 0 then SetBetSpec(d, ClampedBet(d.balance))
    else Ok(Effect(d, []))
  }

  /** `spin` from the provider's outcome to the end. */
  function SettleSpec(d: GameData, outcome: Option<SpinResult>): Ending
  {
    match outcome
    case None => Recover(d)
    case Some(result) =>
      match SetStateSpec(d, Evaluating)
      case Err(_) => Recover(d)
      case Ok(evaluating) =>
        match PayoutSpec(evaluating.data, result.totalWin)
        case Failed(p) =>
          var paid := Then(evaluating, p);
          After(paid, Recover(paid.data))
        case Done(p) =>
          var paid := Then(evaluating, p);
          match ClampSpec(paid.data)
          case Err(_) => After(paid, Recover(paid.data))
          case Ok(clamp) => Ending(Value(result), Then(paid, clamp))
  }

  /** A whole `spin` call with the given provider outcome. */
  function SpinSpec(d: GameData, outcome: Option<SpinResult>): Ending
  {
    var begin := BeginSpec(d);
    match begin.outcome
    case Finished(reply) => Ending(reply, begin.eff)
    case Awaiting(_) => After(begin.eff, SettleSpec(begin.eff.data, outcome))
  }

  /** `finishWinPresentation`: a shown win goes back to idle; any other state is left alone. */
  function FinishSpec(d: GameData): Effect
  {
    if d.currentState == ShowingWin then Effect(d.(currentState := Idle), [StateChange(ShowingWin, Idle)])
    else Effect(d, [])
  }

  /** A spin while not idle, or without the balance for the bet, returns `null` and changes nothing. */
  lemma SpinGuards(d: GameData, outcome: Option<SpinResult>)
    ensures d.currentState != Idle ==> SpinSpec(d, outcome) == Ending(Null, Effect(d, []))
    ensures d.balance < d.bet ==> SpinSpec(d, outcome) == Ending(Null, Effect(d, []))
    ensures !CanPlaceBetIn(d) <==> BeginSpec(d) == Phase(Finished(Null), Effect(d, []))
  {
  }

  /**
   * An accepted spin first moves to spinning and then debits exactly the bet,
   * announcing both, before the provider's outcome is known.
   */
  lemma AcceptedSpinDebits(d: GameData)
    requires CanPlaceBetIn(d) && d.bet >= 0
    ensures BeginSpec(d) == Phase(Awaiting(d.bet),
      Effect(GameData(d.balance - d.bet, d.bet, Spinning), [StateChange(Idle, Spinning), BalanceChange(d.balance - d.bet)]))
    ensures BeginSpec(d).eff.data.balance >= 0
  {
  }

  /** While the first spin waits for the provider, a second spin returns `null` and changes nothing. */
  lemma SecondSpinDeclined(d: GameData, outcome: Option<SpinResult>)
    requires BeginSpec(d).outcome.Awaiting?
    ensures var waiting := BeginSpec(d).eff.data;
      waiting.currentState == Spinning && SpinSpec(waiting, outcome) == Ending(Null, Effect(waiting, []))
  {
    var spinning := SetStateSpec(d, Spinning).value;
    assert BeginSpec(d).eff.data == DecreaseSpec(spinning.data, spinning.data.bet).value.data;
  }

  /**
   * A negative bet (the constructor does not check it) passes the balance
   * guard, but the debit refuses it; the recovery's move to idle is refused
   * from spinning, so the call rejects and the state stays spinning.
   */
  lemma NegativeBetStaysSpinning(d: GameData, outcome: Option<SpinResult>)
    requires d.currentState == Idle && d.bet < 0 && d.balance >= d.bet
    ensures var e := SpinSpec(d, outcome);
      && e.reply == Thrown(TransitionRefused(Spinning, Idle))
      && e.eff.data == d.(currentState := Spinning)
      && e.eff.changes == [StateChange(Idle, Spinning)]
  {
    assert [StateChange(Idle, Spinning)] + [] == [StateChange(Idle, Spinning)];
  }

  /**
   * A failed provider call is caught, but the catch's checked move to idle is
   * refused from spinning: the call rejects, the state stays spinning and the
   * bet stays debited.
   */
  lemma ProviderFailureStaysSpinning(d: GameData)
    requires d.currentState == Spinning
    ensures SettleSpec(d, None) == Ending(Thrown(TransitionRefused(Spinning, Idle)), Effect(d, []))
  {
  }

  /** The clamped bet is a multiple of ten within ten of a balance of at least ten, and ten, above the balance, below that. */
  lemma ClampedBetBounds(balance: int)
    requires balance > 0
    ensures balance >= 10 ==> ClampedBet(balance) <= balance < ClampedBet(balance) + 10 && ClampedBet(balance) % 10 == 0
    ensures balance < 10 ==> ClampedBet(balance) == 10 > balance
  {
  }

  /** The clamp never fires when the bet is within the balance or the balance is not positive. */
  lemma ClampMeaning(d: GameData)
    ensures !(d.bet > d.balance && d.balance > 0) ==> ClampSpec(d) == Ok(Effect(d, []))
    ensures d.bet > d.balance >= 10 ==>
      ClampSpec(d) == Ok(Effect(d.(bet := ClampedBet(d.balance)), [BetChange(ClampedBet(d.balance))])) &&
      0 < ClampedBet(d.balance) <= d.balance
    ensures d.bet > d.balance && 0 < d.balance < 10 ==> ClampSpec(d) == Err(BetExceedsBalance)
  {
    if d.bet > d.balance && d.balance > 0 {
      ClampedBetBounds(d.balance);
    }
  }

  /**
   * Settling a winning result from spinning credits exactly the win and ends
   * showing the win; the clamp then either keeps the bet, lowers it to the
   * clamped value, or, for a balance below ten, throws into the catch, which
   * ends the presentation and returns `null`.
   */
  lemma SettleWin(d: GameData, result: SpinResult)
    requires d.currentState == Spinning && result.totalWin > 0
    ensures var e := SettleSpec(d, Some(result));
      var balance := d.balance + result.totalWin;
      && e.eff.data.balance == balance
      && (!(d.bet > balance && balance > 0) ==>
            e == Ending(Value(result), Effect(GameData(balance, d.bet, ShowingWin),
              [StateChange(Spinning, Evaluating), BalanceChange(balance), StateChange(Evaluating, ShowingWin)])))
      && (d.bet > balance >= 10 ==>
            e.reply == Value(result) && e.eff.data == GameData(balance, ClampedBet(balance), ShowingWin))
      && (d.bet > balance && 0 < balance < 10 ==>
            e.reply == Null && e.eff.data == GameData(balance, d.bet, Idle))
  {
    ClampMeaning(GameData(d.balance + result.totalWin, d.bet, ShowingWin));
  }

  /**
   * Settling a result without a win from spinning leaves the balance as
   * debited and ends idle; when the clamp throws there, the catch's move from
   * idle to idle is refused and the call rejects.
   */
  lemma SettleNoWin(d: GameData, result: SpinResult)
    requires d.currentState == Spinning && result.totalWin <= 0
    ensures var e := SettleSpec(d, Some(result));
      && e.eff.data.balance == d.balance
      && e.eff.data.currentState == Idle
      && (!(d.bet > d.balance && d.balance > 0) ==>
            e == Ending(Value(result), Effect(GameData(d.balance, d.bet, Idle),
              [StateChange(Spinning, Evaluating), StateChange(Evaluating, Idle)])))
      && (d.bet > d.balance >= 10 ==> e.reply == Value(result) && e.eff.data.bet == ClampedBet(d.balance))
      && (d.bet > d.balance && 0 < d.balance < 10 ==> e.reply == Thrown(TransitionRefused(Idle, Idle)) && e.eff.data.bet == d.bet)
  {
    ClampMeaning(GameData(d.balance, d.bet, Idle));
  }

  /**
   * A whole accepted spin with a provider result: the final balance is the
   * old balance less the bet plus any win, and it ends showing the win
   * exactly when there was one and nothing threw.
   */
  lemma WholeSpin(d: GameData, result: SpinResult)
    requires CanPlaceBetIn(d) && d.bet >= 0
    ensures var e := SpinSpec(d, Some(result));
      && e.eff.data.balance == d.balance - d.bet + (if result.totalWin > 0 then result.totalWin else 0)
      && e.eff.data.balance >= 0
      && (e.reply == Value(result) ==> (e.eff.data.currentState == ShowingWin <==> result.totalWin > 0))
      && (e.reply == Value(result) || e.reply == Null || e.reply == Thrown(TransitionRefused(Idle, Idle)))
  {
    AcceptedSpinDebits(d);
    var waiting := BeginSpec(d).eff.data;
    if result.totalWin > 0 {
      SettleWin(waiting, result);
    } else {
      SettleNoWin(waiting, result);
    }
  }

  /** The end of the win presentation returns to idle from a shown win and does nothing elsewhere. */
  lemma FinishMeaning(d: GameData)
    ensures d.currentState == ShowingWin ==> SetStateSpec(d, Idle) == Ok(FinishSpec(d))
    ensures d.currentState != ShowingWin ==> FinishSpec(d) == Effect(d, [])
    ensures FinishSpec(d).data.currentState != ShowingWin
  {
  }

  class GameController {
    const state: GameState

    ghost predicate Valid()
      reads this, state, state.fsm
    {
      state.Valid()
    }

    constructor (initialBalance: int, initialBet: int)
      ensures Valid() && fresh(state) && fresh(state.fsm)
      ensures state.Data() == GameData(initialBalance, initialBet, Idle)
      ensures state.observers == [] && state.events == [] && state.fsm.log == []
    {
      state := new GameState(initialBalance, initialBet);
    }

    /** The catch block: the checked move to idle. */
    method Recovery() returns (reply: Reply)
      requires Valid()
      modifies state, state.fsm
      ensures Valid()
      ensures reply == Recover(old(state.Data())).reply && state.Applied(Recover(old(state.Data())).eff)
    {
      var moved := state.SetState(Idle);
      if moved.Err? {
        return Thrown(moved.error);
      }
      reply := Null;
    }

    /** `spin` up to the provider call. */
    method BeginSpin() returns (outcome: BeginOutcome)
      requires Valid()
      modifies state, state.fsm
      ensures Valid()
      ensures outcome == BeginSpec(old(state.Data())).outcome
      ensures state.Applied(BeginSpec(old(state.Data())).eff)
    {
      ghost var s0 := state.Snap();
      ghost var d := s0.data;
      var current := state.GetState();
      if current != Idle {
        return Finished(Null);
      }
      var placeable := state.CanPlaceBet();
      if !placeable {
        return Finished(Null);
      }
      var transitioned := state.SetState(Spinning);
      if transitioned.Err? {
        var reply := Recovery();
        return Finished(reply);
      }
      ghost var spinning := SetStateSpec(d, Spinning).value;
      ghost var s1 := state.Snap();
      assert Reaches(s0, spinning, s1);
      var bet := state.GetBet();
      var debit := state.DecreaseBalance(bet);
      if debit.Some? {
        assert state.Snap() == s1;
        ghost var recovered := Recover(s1.data);
        var reply := Recovery();
        assert Reaches(s1, recovered.eff, state.Snap());
        ReachesThen(s0, spinning, s1, recovered.eff, state.Snap());
        assert BeginSpec(d) == Phase(Finished(reply), Then(spinning, recovered.eff));
        return Finished(reply);
      }
      ghost var debited := DecreaseSpec(s1.data, bet).value;
      assert Reaches(s1, debited, state.Snap());
      ReachesThen(s0, spinning, s1, debited, state.Snap());
      assert BeginSpec(d) == Phase(Awaiting(bet), Then(spinning, debited));
      outcome := Awaiting(bet);
    }

    /** The win branch or the no-win branch of `spin`; false when one of its calls threw. */
    method Payout(totalWin: int) returns (ok: bool)
      requires Valid()
      modifies state, state.fsm
      ensures Valid()
      ensures ok == PayoutSpec(old(state.Data()), totalWin).Done?
      ensures state.Applied(PayoutSpec(old(state.Data()), totalWin).eff)
    {
      ghost var s0 := state.Snap();
      if totalWin > 0 {
        var credit := state.IncreaseBalance(totalWin);
        if credit.Some? {
          return false;
        }
        ghost var credited := IncreaseSpec(s0.data, totalWin).value;
        ghost var s1 := state.Snap();
        assert Reaches(s0, credited, s1);
        var shown := state.SetState(ShowingWin);
        if shown.Err? {
          assert state.Snap() == s1;
          return false;
        }
        ghost var showing := SetStateSpec(credited.data, ShowingWin).value;
        assert Reaches(s1, showing, state.Snap());
        ReachesThen(s0, credited, s1, showing, state.Snap());
        ok := true;
      } else {
        var idle := state.SetState(Idle);
        ok := idle.Ok?;
      }
    }

    /** `clampBetToBalance`. */
    method ClampBetToBalance() returns (e: Option<GameError>)
      requires Valid()
      modifies state
      ensures Valid() && state.Performed(e, ClampSpec(old(state.Data())))
    {
      var balance := state.GetBalance();
      var bet := state.GetBet();
      if bet > balance && balance > 0 {
        var target := if (balance / 10) * 10 > 10 then (balance / 10) * 10 else 10;
        e := state.SetBet(target);
      } else {
        e := None;
      }
    }

    /** The catch block after the move to evaluating: recovery from the snapshot the failed call left. */
    method RecoverAfter(ghost s0: Snapshot, ghost paid: Effect) returns (reply: Reply)
      requires Valid() && Reaches(s0, paid, state.Snap())
      modifies state, state.fsm
      ensures Valid()
      ensures var r := After(paid, Recover(paid.data));
        reply == r.reply && Reaches(s0, r.eff, state.Snap())
    {
      ghost var s1 := state.Snap();
      ghost var recovered := Recover(paid.data);
      reply := Recovery();
      assert Reaches(s1, recovered.eff, state.Snap());
      ReachesThen(s0, paid, s1, recovered.eff, state.Snap());
    }

    /** `spin` from the provider's outcome (`None` when the provider call failed). */
    method SettleSpin(providerOutcome: Option<SpinResult>) returns (reply: Reply)
      requires Valid()
      modifies state, state.fsm
      ensures Valid()
      ensures reply == SettleSpec(old(state.Data()), providerOutcome).reply
      ensures state.Applied(SettleSpec(old(state.Data()), providerOutcome).eff)
    {
      ghost var s0 := state.Snap();
      ghost var d := s0.data;
      if providerOutcome.None? {
        reply := Recovery();
        return;
      }
      var result := providerOutcome.value;
      var evaluating := state.SetState(Evaluating);
      if evaluating.Err? {
        reply := Recovery();
        return;
      }
      ghost var evaluated := SetStateSpec(d, Evaluating).value;
      ghost var s1 := state.Snap();
      assert Reaches(s0, evaluated, s1);
      ghost var tried := PayoutSpec(evaluated.data, result.totalWin);
      var paidOk := Payout(result.totalWin);
      ghost var paid := Then(evaluated, tried.eff);
      ghost var s2 := state.Snap();
      assert Reaches(s1, tried.eff, s2);
      ReachesThen(s0, evaluated, s1, tried.eff, s2);
      if !paidOk {
        reply := RecoverAfter(s0, paid);
        assert SettleSpec(d, providerOutcome) == After(paid, Recover(paid.data));
        return;
      }
      ghost var clampSpec := ClampSpec(paid.data);
      var clamped := ClampBetToBalance();
      if clamped.Some? {
        assert state.Snap() == s2;
        reply := RecoverAfter(s0, paid);
        assert SettleSpec(d, providerOutcome) == After(paid, Recover(paid.data));
        return;
      }
      assert Reaches(s2, clampSpec.value, state.Snap());
      ReachesThen(s0, paid, s2, clampSpec.value, state.Snap());
      reply := Value(result);
      assert SettleSpec(d, providerOutcome) == Ending(Value(result), Then(paid, clampSpec.value));
    }

    /** `spin`: the first phase, then, when it waits, the provider's outcome settled. */
    method Spin(providerOutcome: Option<SpinResult>) returns (reply: Reply)
      requires Valid()
      modifies state, state.fsm
      ensures Valid()
      ensures reply == SpinSpec(old(state.Data()), providerOutcome).reply
      ensures state.Applied(SpinSpec(old(state.Data()), providerOutcome).eff)
    {
      ghost var s0 := state.Snap();
      ghost var begin := BeginSpec(s0.data);
      var outcome := BeginSpin();
      if outcome.Finished? {
        return outcome.reply;
      }
      ghost var s1 := state.Snap();
      assert Reaches(s0, begin.eff, s1);
      ghost var settle := SettleSpec(begin.eff.data, providerOutcome);
      reply := SettleSpin(providerOutcome);
      assert Reaches(s1, settle.eff, state.Snap());
      ReachesThen(s0, begin.eff, s1, settle.eff, state.Snap());
    }

    /** `finishWinPresentation`. */
    method FinishWinPresentation()
      requires Valid()
      modifies state, state.fsm
      ensures Valid() && state.Applied(FinishSpec(old(state.Data())))
    {
      var current := state.GetState();
      if current == ShowingWin {
        var _ := state.SetState(Idle);
      }
    }

    /** `canSpin`: idle, and a bet can be placed. */
    method CanSpin() returns (b: bool)
      ensures b <==> state.Data().currentState == Idle && CanPlaceBetIn(state.Data())
    {
      var current := state.GetState();
      var placeable := state.CanPlaceBet();
      b := current == Idle && placeable;
    }

    /** `setBet`: the game state's checked setter. */
    method SetBet(amount: int) returns (e: Option<GameError>)
      requires Valid()
      modifies state
      ensures Valid() && state.Performed(e, SetBetSpec(old(state.Data()), amount))
    {
      e := state.SetBet(amount);
    }

    method GetBalance() returns (b: int)
      ensures b == state.balance
    {
      b := state.GetBalance();
    }

    method GetBet() returns (b: int)
      ensures b == state.bet
    {
      b := state.GetBet();
    }

    method GetStatus() returns (s: Status)
      ensures s == state.fsm.currentState
    {
      s := state.GetState();
    }

    /** `getState`: the game state object itself, shared with the caller. */
    method GetGameState() returns (s: GameState)
      ensures s == state
    {
      s := state;
    }
  }
}
