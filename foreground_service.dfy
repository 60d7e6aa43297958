/**
 * ForegroundService.java: an Android service that stays in the foreground, with a
 * notification, while a track is being recorded or the audible is on. Each start intent
 * carries one of four actions that set one of the two flags, after which the notification
 * is shown or the service stops itself.
 *
 * The Android calls (startForeground, stopForeground, stopSelf) and the log lines are a trace.
 */
module Foreground {
  import opened JavaLang

  const ACTION_START_LOGGING: string := "start_logging"
  const ACTION_START_AUDIBLE: string := "start_audible"
  const ACTION_STOP_LOGGING: string := "stop_logging"
  const ACTION_STOP_AUDIBLE: string := "stop_audible"

  /** `Service.START_STICKY`. */
  const START_STICKY: int := 1

  datatype Action = StartLogging | StartAudible | StopLogging | StopAudible | Unexpected

  /** The `equals` chain of `onStartCommand`; a null action matches none of the four. */
  function ActionOf(action: Option<string>): (a: Action)
    ensures a == StartLogging <==> action == Some(ACTION_START_LOGGING)
    ensures a == StartAudible <==> action == Some(ACTION_START_AUDIBLE)
    ensures a == StopLogging <==> action == Some(ACTION_STOP_LOGGING)
    ensures a == StopAudible <==> action == Some(ACTION_STOP_AUDIBLE)
  {
    if action == Some(ACTION_START_LOGGING) then StartLogging
    else if action == Some(ACTION_START_AUDIBLE) then StartAudible
    else if action == Some(ACTION_STOP_LOGGING) then StopLogging
    else if action == Some(ACTION_STOP_AUDIBLE) then StopAudible
    else Unexpected
  }

  datatype ServiceEffect =
    | Received(action: Action)                      // "Received ... action" / "unexpected action"
    | ShowNotification(logging: bool, audible: bool) // startForeground with the notification
    | StopForeground                                 // stopForeground(true)
    | StopSelf

  /** The effects of `updateNotification` with these flags. */
  function UpdateEffects(logging: bool, audible: bool): seq<ServiceEffect> {
    if logging || audible then [ShowNotification(logging, audible)] else [StopForeground, StopSelf]
  }

  /** Whether the effects leave the service in the foreground, starting from `foreground`. */
  function InForeground(foreground: bool, effects: seq<ServiceEffect>): bool
    decreases |effects|
  {
    if effects == [] then foreground
    else
      var e := effects[|effects| - 1];
      var before := InForeground(foreground, effects[..|effects| - 1]);
      if e.ShowNotification? then true else if e.StopForeground? then false else before
  }

  /** Whether the notification was ever updated. */
  predicate Updated(effects: seq<ServiceEffect>) {
    exists i :: 0 <= i < |effects| && (effects[i].ShowNotification? || effects[i].StopForeground?)
  }

  /** After an update the service is in the foreground iff a flag is set. */
  lemma ForegroundAfterUpdate(foreground: bool, effects: seq<ServiceEffect>, logging: bool, audible: bool)
    ensures InForeground(foreground, effects + UpdateEffects(logging, audible)) == (logging || audible)
    ensures Updated(effects + UpdateEffects(logging, audible))
  {
    var all := effects + UpdateEffects(logging, audible);
    if logging || audible {
      assert all[..|all| - 1] == effects;
    } else {
      assert all[..|all| - 1] == effects + [StopForeground];
      assert all[..|all| - 1][..|all| - 2] == effects;
    }
    assert all[|effects|] == UpdateEffects(logging, audible)[0];
  }

  /** A log line changes nothing about the foreground state nor whether an update happened. */
  lemma ReceivedKeepsForeground(foreground: bool, effects: seq<ServiceEffect>, action: Action)
    ensures InForeground(foreground, effects + [Received(action)]) == InForeground(foreground, effects)
    ensures Updated(effects + [Received(action)]) == Updated(effects)
  {
    var all := effects + [Received(action)];
    assert all[..|all| - 1] == effects;
    if Updated(all) {
      var i :| 0 <= i < |all| && (all[i].ShowNotification? || all[i].StopForeground?);
      assert i < |effects| && effects[i] == all[i];
    }
    if Updated(effects) {
      var i :| 0 <= i < |effects| && (effects[i].ShowNotification? || effects[i].StopForeground?);
      assert all[i] == effects[i];
    }
  }

  class ForegroundService {
    var logging: bool
    var audible: bool
    var effects: seq<ServiceEffect>

    /** Once the notification was updated, the service is in the foreground iff a flag is set. */
    ghost predicate Valid()
      reads this
    {
      Updated(effects) ==> InForeground(false, effects) == (logging || audible)
    }

    constructor ()
      ensures Valid() && !logging && !audible && effects == []
    {
      logging, audible, effects := false, false, [];
    }

    /**
     * `onStartCommand`: each known action sets exactly its flag and then updates the
     * notification; an unexpected one is only logged. The result is always START_STICKY.
     */
    method OnStartCommand(action: Option<string>) returns (result: int)
      requires Valid()
      modifies this
      ensures Valid()
      ensures result == START_STICKY
      ensures var a := ActionOf(action);
        && logging == (if a == StartLogging then true else if a == StopLogging then false else old(logging))
        && audible == (if a == StartAudible then true else if a == StopAudible then false else old(audible))
        && effects == old(effects) + [Received(a)]
                      + (if a == Unexpected then [] else UpdateEffects(logging, audible))
    {
      var a := ActionOf(action);
      ReceivedKeepsForeground(false, effects, a);
      effects := effects + [Received(a)];
      if a == StartLogging {
        logging := true;
        UpdateNotification();
        assert audible == old(audible);
      } else if a == StartAudible {
        audible := true;
        UpdateNotification();
        assert logging == old(logging);
      } else if a == StopLogging {
        logging := false;
        UpdateNotification();
        assert audible == old(audible);
      } else if a == StopAudible {
        audible := false;
        UpdateNotification();
        assert logging == old(logging);
      } else {
        assert logging == old(logging) && audible == old(audible);
      }
      result := START_STICKY;
    }

    /** `updateNotification`: show it while either flag is set, else leave the foreground and stop. */
    method UpdateNotification()
      modifies this`effects
      ensures effects == old(effects) + UpdateEffects(logging, audible)
      ensures Valid()
    {
      ForegroundAfterUpdate(false, effects, logging, audible);
      if logging || audible {
        effects := effects + [ShowNotification(logging, audible)];
      } else {
        effects := effects + [StopForeground, StopSelf];
      }
    }
  }
}
