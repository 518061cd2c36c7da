/**
 * The toggle controller of MainActivity: the switch that suspends or
 * unsuspends the selected packages through the Shizuku user service, its
 * re-entrancy guard, the biometric gate on switching off, and the callbacks of
 * the service connection, the permission request and the app selection screen.
 *
 * Android, Shizuku and the biometric prompt are the environment: what they
 * report arrives as method parameters, and what the activity asks of them is
 * appended to the `effects` log.
 */
module Controller {
  import opened Wrappers
  import opened SuspendCommand
  import opened PackageStatus
  import opened PackageStore

  /** The request code the activity passes to Shizuku.requestPermission. */
  const SHIZUKU_REQUEST_CODE: int := 100
  /** PackageManager.PERMISSION_GRANTED. */
  const PERMISSION_GRANTED: int := 0
  /** Activity.RESULT_OK. */
  const RESULT_OK: int := -1

  datatype Toast =
    | SelectAppsFirst
    | PermissionRequired
    | ServiceNotConnected
    | Succeeded(suspend: bool)
    | Failed(exitCode: int)

  /** What the activity asks of its environment. */
  datatype Effect =
    | RunCommand(command: string)
    | Authenticate
    | RequestPermission(requestCode: int)
    | BindUserService
    | UnbindUserService
    | LaunchAppSelection
    | ShowToast(toast: Toast)

  /** A command handed to the background thread, awaiting its completion on the UI thread. */
  datatype SuspendTask = SuspendTask(suspend: bool, command: string)

  /** What IUserService.runCommand does: return an exit code, or throw (a dead binder). */
  datatype Outcome = Exited(exitCode: int) | Threw

  /** The binder handed to onServiceConnected. */
  datatype Binder = NullBinder | Binder(isBinderAlive: bool)

  /** All the activity's state at one moment, for stating what a method changes. */
  datatype Snapshot = Snapshot(
    selectedPackages: seq<string>,
    isUpdatingSwitch: bool,
    userServiceConnected: bool,
    switchChecked: bool,
    switchEnabled: bool,
    selectAppsEnabled: bool,
    savedPackages: Option<set<string>>,
    running: seq<SuspendTask>,
    effects: seq<Effect>)

  /** What checkShizukuAndBindService asks of Shizuku, given its ping and permission answers. */
  function BindRequests(binderAlive: bool, selfPermission: int): (r: seq<Effect>)
    ensures r == [] <==> !binderAlive
    ensures RequestPermission(SHIZUKU_REQUEST_CODE) in r <==> binderAlive && selfPermission != PERMISSION_GRANTED
    ensures BindUserService in r <==> binderAlive && selfPermission == PERMISSION_GRANTED
  {
    if !binderAlive then []
    else if selfPermission == PERMISSION_GRANTED then [BindUserService]
    else [RequestPermission(SHIZUKU_REQUEST_CODE)]
  }

  class MainActivity {
    var selectedPackages: seq<string>
    var isUpdatingSwitch: bool
    /** userService != null */
    var userServiceConnected: bool
    var switchChecked: bool
    var switchEnabled: bool
    var selectAppsEnabled: bool
    /** The "saved_packages" entry of the "AppConfig" shared preferences. */
    var savedPackages: Option<set<string>>
    /** Commands started on a background thread whose result has not yet been handled. */
    var running: seq<SuspendTask>
    var effects: seq<Effect>

    function View(): Snapshot
      reads this
    {
      Snapshot(selectedPackages, isUpdatingSwitch, userServiceConnected, switchChecked,
               switchEnabled, selectAppsEnabled, savedPackages, running, effects)
    }

    /**
     * Between events the guard is down, and the switch is enabled exactly when
     * the user service is connected.
     */
    predicate Valid()
      reads this
    {
      !isUpdatingSwitch && switchEnabled == userServiceConnected
    }

    /** onCreate: load the selection, disable the switch, then check Shizuku. */
    constructor OnCreate(stored: Option<set<string>>, binderAlive: bool, selfPermission: int)
      ensures Valid()
      ensures stored.None? ==> selectedPackages == []
      ensures stored.Some? ==>
        Elements(selectedPackages) == stored.value && NoDuplicates(selectedPackages)
      ensures savedPackages == stored && !userServiceConnected && !switchChecked
      ensures selectAppsEnabled && running == []
      ensures effects == BindRequests(binderAlive, selfPermission)
    {
      selectedPackages := [];
      isUpdatingSwitch := false;
      userServiceConnected := false;
      switchChecked := false;
      switchEnabled := false;
      selectAppsEnabled := true;
      savedPackages := stored;
      running := [];
      effects := [];
      new;
      LoadSelectedPackages();
      switchEnabled := false;
      CheckShizukuAndBindService(binderAlive, selfPermission);
    }

    method LoadSelectedPackages()
      modifies this
      ensures savedPackages.None? ==> View() == old(View())
      ensures savedPackages.Some? ==>
        && Elements(selectedPackages) == savedPackages.value
        && NoDuplicates(selectedPackages)
        && View() == old(View()).(selectedPackages := selectedPackages)
    {
      if savedPackages.Some? {
        var pkgs := ListFromSet(savedPackages.value);
        selectedPackages := pkgs;
      }
    }

    method SaveSelectedPackages()
      modifies this
      ensures View() == old(View()).(savedPackages := Some(Elements(selectedPackages)))
    {
      savedPackages := Some(Elements(selectedPackages));
    }

    /**
     * CompoundButton.setChecked: a change of value is reported to the
     * checked-change listener before the call returns.
     */
    method SetChecked(checked: bool)
      modifies this
      decreases if isUpdatingSwitch then 1 else 11
      ensures old(isUpdatingSwitch) ==> View() == old(View()).(switchChecked := checked)
    {
      if switchChecked != checked {
        switchChecked := checked;
        OnCheckedChanged(checked);
      }
    }

    /** The checked-change listener installed on the switch in onCreate. */
    method OnCheckedChanged(isChecked: bool)
      modifies this
      decreases if isUpdatingSwitch then 0 else 10
      ensures old(isUpdatingSwitch) ==> View() == old(View())
      ensures !old(isUpdatingSwitch) && old(selectedPackages) == [] ==>
        View() == old(View()).(switchChecked := !isChecked,
                               effects := old(effects) + [ShowToast(SelectAppsFirst)])
      ensures !old(isUpdatingSwitch) && old(selectedPackages) != [] && isChecked ==>
        if old(userServiceConnected) then
          var task := SuspendTask(true, CommandText(true, old(selectedPackages)));
          View() == old(View()).(running := old(running) + [task],
                                 effects := old(effects) + [RunCommand(task.command)])
        else
          View() == old(View()).(switchChecked := false,
                                 effects := old(effects) + [ShowToast(ServiceNotConnected)])
      ensures !old(isUpdatingSwitch) && old(selectedPackages) != [] && !isChecked ==>
        View() == old(View()).(effects := old(effects) + [Authenticate])
    {
      if isUpdatingSwitch {
        return;
      }
      if selectedPackages == [] {
        effects := effects + [ShowToast(SelectAppsFirst)];
        RevertSwitchState(!isChecked);
        return;
      }
      if isChecked {
        ExecuteSuspendAction(true);
      } else {
        AuthenticateAndUnsuspend();
      }
    }

    /** The user taps the switch: an enabled switch flips and notifies its listener. */
    method UserToggle()
      requires Valid()
      modifies this
      ensures Valid()
      ensures !old(switchEnabled) ==> View() == old(View())
      ensures old(switchEnabled) && old(selectedPackages) == [] ==>
        View() == old(View()).(effects := old(effects) + [ShowToast(SelectAppsFirst)])
      ensures old(switchEnabled) && old(selectedPackages) != [] && !old(switchChecked) ==>
        var task := SuspendTask(true, CommandText(true, old(selectedPackages)));
        View() == old(View()).(switchChecked := true,
                               running := old(running) + [task],
                               effects := old(effects) + [RunCommand(task.command)])
      ensures old(switchEnabled) && old(selectedPackages) != [] && old(switchChecked) ==>
        View() == old(View()).(switchChecked := false,
                               effects := old(effects) + [Authenticate])
    {
      if switchEnabled {
        switchChecked := !switchChecked;
        OnCheckedChanged(switchChecked);
      }
    }

    /** checkShizukuAndBindService: bind when permitted, otherwise ask for permission 100. */
    method CheckShizukuAndBindService(binderAlive: bool, selfPermission: int)
      modifies this
      ensures View() == old(View()).(effects := old(effects) + BindRequests(binderAlive, selfPermission))
    {
      effects := effects + BindRequests(binderAlive, selfPermission);
    }

    /**
     * The issue step of executeSuspendAction: without a user service, revert the
     * switch to !suspend; otherwise build the command and start it.
     */
    method ExecuteSuspendAction(suspend: bool)
      modifies this
      decreases 9
      ensures !old(userServiceConnected) ==>
        View() == old(View()).(switchChecked := !suspend, isUpdatingSwitch := false,
                               effects := old(effects) + [ShowToast(ServiceNotConnected)])
      ensures old(userServiceConnected) ==>
        var task := SuspendTask(suspend, CommandText(suspend, old(selectedPackages)));
        View() == old(View()).(running := old(running) + [task],
                               effects := old(effects) + [RunCommand(task.command)])
    {
      if !userServiceConnected {
        effects := effects + [ShowToast(ServiceNotConnected)];
        RevertSwitchState(!suspend);
        return;
      }
      var finalCommand := BuildCommand(suspend, selectedPackages);
      effects := effects + [RunCommand(finalCommand)];
      running := running + [SuspendTask(suspend, finalCommand)];
    }

    /**
     * The completion step of executeSuspendAction, run on the UI thread once the
     * command of running[task] has exited or thrown.
     */
    method CompleteSuspendAction(task: nat, outcome: Outcome, apps: map<string, bv32>)
      requires Valid()
      requires task < |running|
      modifies this
      ensures Valid()
      ensures
        var suspend := old(running[task]).suspend;
        var others := old(running[..task] + running[task + 1..]);
        var sel := old(selectedPackages);
        var all := AllInstalledSuspended(sel, apps);
        match outcome
        case Threw =>
          View() == old(View()).(running := others, switchChecked := !suspend)
        case Exited(code) =>
          View() == old(View()).(
            running := others,
            switchChecked :=
              if sel != [] then all else if code == 0 then old(switchChecked) else !suspend,
            selectAppsEnabled := if sel != [] then !all else old(selectAppsEnabled),
            effects := old(effects) + [ShowToast(if code == 0 then Succeeded(suspend) else Failed(code))])
      ensures outcome.Exited? && old(selectedPackages) != [] ==>
        switchChecked == AllInstalledSuspended(old(selectedPackages), apps)
    {
      ghost var before := View();
      var suspend := running[task].suspend;
      running := running[..task] + running[task + 1..];
      ghost var removed := View();
      assert removed == before.(running := running);
      match outcome {
        case Exited(exitCode) =>
          if exitCode == 0 {
            effects := effects + [ShowToast(Succeeded(suspend))];
          } else {
            effects := effects + [ShowToast(Failed(exitCode))];
            RevertSwitchState(!suspend);
          }
          ghost var reported := View();
          assert reported.selectedPackages == before.selectedPackages;
          CheckAppsSuspendedStatus(apps);
        case Threw =>
          RevertSwitchState(!suspend);
      }
    }

    /** The app selection screen returns: apply a list only from an OK result that carries one. */
    method OnSelectAppsResult(resultCode: int, packages: Option<seq<string>>, apps: map<string, bv32>)
      requires Valid()
      modifies this
      ensures Valid()
      ensures !(resultCode == RESULT_OK && packages.Some?) ==> View() == old(View())
      ensures resultCode == RESULT_OK && packages.Some? ==>
        var sel := packages.value;
        var all := AllInstalledSuspended(sel, apps);
        View() == old(View()).(
          selectedPackages := sel,
          savedPackages := Some(Elements(sel)),
          switchChecked := if sel != [] then all else old(switchChecked),
          selectAppsEnabled := if sel != [] then !all else old(selectAppsEnabled))
    {
      if resultCode == RESULT_OK {
        if packages.Some? {
          selectedPackages := packages.value;
          SaveSelectedPackages();
          CheckAppsSuspendedStatus(apps);
        }
      }
    }

    /** The user taps the select-apps button: an enabled button opens the selection screen. */
    method UserClicksSelectApps()
      requires Valid()
      modifies this
      ensures Valid()
      ensures !old(selectAppsEnabled) ==> View() == old(View())
      ensures old(selectAppsEnabled) ==> View() == old(View()).(effects := old(effects) + [LaunchAppSelection])
    {
      if selectAppsEnabled {
        effects := effects + [LaunchAppSelection];
      }
    }

    method OnAuthenticationSucceeded()
      requires Valid()
      modifies this
      ensures Valid()
      ensures !old(userServiceConnected) ==>
        View() == old(View()).(switchChecked := true,
                               effects := old(effects) + [ShowToast(ServiceNotConnected)])
      ensures old(userServiceConnected) ==>
        var task := SuspendTask(false, CommandText(false, old(selectedPackages)));
        View() == old(View()).(running := old(running) + [task],
                               effects := old(effects) + [RunCommand(task.command)])
    {
      ExecuteSuspendAction(false);
    }

    method OnAuthenticationError(errorCode: int)
      requires Valid()
      modifies this
      ensures Valid()
      ensures View() == old(View()).(switchChecked := true)
    {
      RevertSwitchState(true);
    }

    /** authenticateAndUnsuspend: show the biometric prompt; its callbacks decide. */
    method AuthenticateAndUnsuspend()
      modifies this
      ensures View() == old(View()).(effects := old(effects) + [Authenticate])
    {
      effects := effects + [Authenticate];
    }

    /**
     * checkAppsSuspendedStatus: with a selection, show "all installed selected
     * packages are suspended" on the switch and allow changing the selection
     * only when that is false.
     */
    method CheckAppsSuspendedStatus(apps: map<string, bv32>)
      requires !isUpdatingSwitch
      modifies this
      ensures selectedPackages == [] ==> View() == old(View())
      ensures selectedPackages != [] ==>
        var all := AllInstalledSuspended(selectedPackages, apps);
        View() == old(View()).(switchChecked := all, selectAppsEnabled := !all)
    {
      if selectedPackages == [] {
        return;
      }
      var allSuspended := ScanSuspended(selectedPackages, apps);
      UpdateSwitchSilent(allSuspended);
      selectAppsEnabled := !allSuspended;
    }

    /** Set the switch with the listener muted by the guard. */
    method UpdateSwitchSilent(checked: bool)
      modifies this
      ensures View() == old(View()).(switchChecked := checked, isUpdatingSwitch := false)
    {
      isUpdatingSwitch := true;
      SetChecked(checked);
      isUpdatingSwitch := false;
    }

    /** Put the switch back to `target` with the listener muted by the guard. */
    method RevertSwitchState(target: bool)
      modifies this
      decreases 8
      ensures View() == old(View()).(switchChecked := target, isUpdatingSwitch := false)
    {
      isUpdatingSwitch := true;
      SetChecked(target);
      isUpdatingSwitch := false;
    }

    /** onServiceConnected: a live binder becomes the user service and enables the switch. */
    method OnServiceConnected(binder: Binder)
      requires Valid()
      modifies this
      ensures Valid()
      ensures binder == Binder(true) ==>
        View() == old(View()).(userServiceConnected := true, switchEnabled := true)
      ensures binder != Binder(true) ==> View() == old(View())
    {
      if binder.Binder? && binder.isBinderAlive {
        userServiceConnected := true;
        switchEnabled := true;
      }
    }

    /** onServiceDisconnected: drop the user service and disable the switch. */
    method OnServiceDisconnected()
      requires Valid()
      modifies this
      ensures Valid()
      ensures View() == old(View()).(userServiceConnected := false, switchEnabled := false)
    {
      userServiceConnected := false;
      switchEnabled := false;
    }

    /** The Shizuku binder-received listener. */
    method OnBinderReceived(binderAlive: bool, selfPermission: int)
      requires Valid()
      modifies this
      ensures Valid()
      ensures View() == old(View()).(effects := old(effects) + BindRequests(binderAlive, selfPermission))
    {
      CheckShizukuAndBindService(binderAlive, selfPermission);
    }

    /**
     * The Shizuku permission-result listener: only code 100 with the permission
     * granted goes on to bind; anything else turns the switch off.
     */
    method OnRequestPermissionResult(requestCode: int, grantResult: int, binderAlive: bool, selfPermission: int)
      requires Valid()
      modifies this
      ensures Valid()
      ensures requestCode == SHIZUKU_REQUEST_CODE && grantResult == PERMISSION_GRANTED ==>
        View() == old(View()).(effects := old(effects) + BindRequests(binderAlive, selfPermission))
      ensures !(requestCode == SHIZUKU_REQUEST_CODE && grantResult == PERMISSION_GRANTED) ==>
        View() == old(View()).(switchChecked := false,
                               effects := old(effects) + [ShowToast(PermissionRequired)])
    {
      if requestCode == SHIZUKU_REQUEST_CODE && grantResult == PERMISSION_GRANTED {
        CheckShizukuAndBindService(binderAlive, selfPermission);
      } else {
        RevertSwitchState(false);
        effects := effects + [ShowToast(PermissionRequired)];
      }
    }

    /** onDestroy: unbind the user service. */
    method OnDestroy()
      requires Valid()
      modifies this
      ensures Valid()
      ensures View() == old(View()).(effects := old(effects) + [UnbindUserService])
    {
      effects := effects + [UnbindUserService];
    }
  }
}
