/**
 * BotStateService: the process-wide bot status (ACTIVE, ON_HOLD, STOPPED), when it last
 * changed and why. The wall clock LocalDateTime.now() is passed in as `now`.
 */
module BotStateService {
  import opened Wrappers
  import opened Text

  datatype BotStatus = Active | OnHold | Stopped {
    function Name(): string {
      match this
      case Active => "ACTIVE"
      case OnHold => "ON_HOLD"
      case Stopped => "STOPPED"
    }
  }

  class BotState {
    var currentStatus: BotStatus
    var lastStatusChange: int
    var statusChangeReason: string

    /** A fresh bot is ACTIVE, "Bot initialized", stamped with the clock at creation. */
    constructor (now: int)
      ensures currentStatus == Active
      ensures statusChangeReason == "Bot initialized"
      ensures lastStatusChange == now
    {
      currentStatus := Active;
      lastStatusChange := now;
      statusChangeReason := "Bot initialized";
    }

    predicate IsActive()
      reads this
    {
      currentStatus == Active
    }

    predicate IsOnHold()
      reads this
    {
      currentStatus == OnHold
    }

    /** setStatus overwrites all three fields: the new status, its reason, and the clock reading as its stamp. */
    method SetStatus(status: BotStatus, reason: string, now: int)
      modifies this
      ensures currentStatus == status
      ensures statusChangeReason == reason
      ensures lastStatusChange == now
    {
      currentStatus := status;
      lastStatusChange := now;
      statusChangeReason := reason;
    }

    /** activateBot: ACTIVE from any state; a null reason becomes "Bot activated". */
    method ActivateBot(reason: Option<string>, now: int)
      modifies this
      ensures currentStatus == Active && IsActive() && !IsOnHold()
      ensures statusChangeReason == ReasonOrDefault(reason, "Bot activated")
      ensures lastStatusChange == now
    {
      SetStatus(Active, ReasonOrDefault(reason, "Bot activated"), now);
    }

    /** holdBot: ON_HOLD from any state; a null reason becomes "Bot put on hold". */
    method HoldBot(reason: Option<string>, now: int)
      modifies this
      ensures currentStatus == OnHold && !IsActive() && IsOnHold()
      ensures statusChangeReason == ReasonOrDefault(reason, "Bot put on hold")
      ensures lastStatusChange == now
    {
      SetStatus(OnHold, ReasonOrDefault(reason, "Bot put on hold"), now);
    }

    /** stopBot: STOPPED from any state; a null reason becomes "Bot stopped". */
    method StopBot(reason: Option<string>, now: int)
      modifies this
      ensures currentStatus == Stopped && !IsActive() && !IsOnHold()
      ensures statusChangeReason == ReasonOrDefault(reason, "Bot stopped")
      ensures lastStatusChange == now
    {
      SetStatus(Stopped, ReasonOrDefault(reason, "Bot stopped"), now);
    }

    /**
     * getStatusSummary: "Bot Status: <status> (Changed: <time>, Reason: <reason>)". The time
     * is the clock reading in decimal; Java prints LocalDateTime in ISO form.
     */
    function StatusSummary(): (s: string)
      reads this
      ensures Contains(s, "Bot Status:")
      ensures Contains(s, currentStatus.Name())
      ensures Contains(s, statusChangeReason)
    {
      var name := currentStatus.Name();
      var stamp := " (Changed: " + IntToString(lastStatusChange) + ", Reason: ";
      var summary := "Bot Status: " + name + stamp + statusChangeReason + ")";
      assert summary[..11] == "Bot Status:";
      ContainsMiddle("Bot Status: ", name, stamp + statusChangeReason + ")");
      assert "Bot Status: " + name + (stamp + statusChangeReason + ")") == summary;
      ContainsMiddle("Bot Status: " + name + stamp, statusChangeReason, ")");
      summary
    }
  }

  /**
   * The reason a transition records: the caller's if one was given (even the empty
   * string), the transition's default when it was null.
   */
  function ReasonOrDefault(reason: Option<string>, default: string): (r: string)
    ensures reason.Some? ==> r == reason.value
    ensures reason.None? ==> r == default
  {
    match reason
    case Some(given) => given
    case None => default
  }

  /** isActive and isOnHold name one status each, are never both true, and STOPPED makes both false. */
  lemma StatusPredicates(bot: BotState)
    ensures bot.IsActive() <==> bot.currentStatus == Active
    ensures bot.IsOnHold() <==> bot.currentStatus == OnHold
    ensures !(bot.IsActive() && bot.IsOnHold())
    ensures bot.currentStatus == Stopped <==> !bot.IsActive() && !bot.IsOnHold()
  {
  }

  /** A null reason is replaced by the default; the empty string is kept as it is. */
  lemma EmptyReasonKept(default: string)
    ensures ReasonOrDefault(Some(""), default) == ""
    ensures ReasonOrDefault(None, default) == default
  {
  }
}
