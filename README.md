# Suspend toggle controller of the app locker

This project models the toggle controller of `MainActivity` in the app locker Android app. The user picks
some packages and flips one switch. Switching it on runs `cmd package suspend <pkg>...` through the Shizuku
user service. Switching it off runs `cmd package unsuspend <pkg>...`, but only after a biometric prompt
succeeds. Once a command has finished, the activity reads the packages' `FLAG_SUSPENDED` bits again. The
switch is then set to what it finds, and the select-apps button is enabled only when that is "not all
suspended".

Modules:

- `SuspendCommand` (`command.dfy`) holds the verb and the command text. `BuildCommand` is the
  `StringBuilder` loop, proved equal to `CommandText`. It also models how `Runtime.exec(String)` in the user
  service splits the line at whitespace. `CommandTokens` proves that each package becomes its own argument when no name is empty or contains
  whitespace. `SpacedNameSplits` shows what happens otherwise.
- `PackageStatus` (`status.dfy`) holds `FLAG_SUSPENDED` (bit 30 of `ApplicationInfo.flags`) and the probe
  loop `ScanSuspended`, with its `continue` and `break`. That loop is proved against `AllInstalledSuspended`.
- `PackageStore` (`store.dfy`) holds the `saved_packages` string set and the reload of that set into a list.
  It proves that saving and then reloading a selection without duplicates gives a permutation of it.
- `Controller` (`controller.dfy`) holds the class `MainActivity`. Its fields are the selection, the
  `isUpdatingSwitch` guard and whether `userService` is connected. It also holds the switch's checked and
  enabled flags, the button's enabled flag, the persisted set, the commands still running on background
  threads, and a log of the requests made to the environment (`Effect`). Each callback is a method. Its
  `ensures` gives the whole new state as `old(View())` with the changed fields replaced. Every event method
  preserves `Valid()`: the guard is down between events, and the switch is enabled exactly when the user
  service is connected.

`SetChecked` models the Android widget: a programmatic change of the switch's value calls the
checked-change listener synchronously. `UpdateSwitchSilent` and `RevertSwitchState` therefore raise the
guard, and the listener's contract says that under the guard it changes nothing. Their contracts say the
switch ends at the given value with the guard lowered. The mutual recursion between setter, listener and
revert terminates because the guard is up on the inner call.

The environment is given as parameters:

- the installed packages and their flags, a `map<string, bv32>`;
- Shizuku's ping and permission answers;
- the binder handed to `onServiceConnected`;
- the result of the selection screen;
- the outcome of `runCommand`: an exit code, or an exception from the binder.

The background thread of `executeSuspendAction` is split into two steps. `ExecuteSuspendAction` issues
the command and records a `SuspendTask`. `CompleteSuspendAction` is the later `runOnUiThread` block for one
of the recorded tasks.

Where the code and the intended design differ, the model follows the code:

- A non-empty selection whose packages are all not installed probes as "all suspended", so the switch is set
  on (`ScanSuspended`'s second ensures). The intended behaviour is that such a selection shows the switch off.
- An empty selection never forces the switch off: the probe returns at once and leaves the switch as it was
  (`CheckAppsSuspendedStatus`, `OnSelectAppsResult`).
- onCreate runs no status probe, so the switch starts unchecked whatever the packages' real state.
- The selection is never checked for whitespace. The command is one string that the user service splits at
  whitespace, so a name containing a space becomes several arguments instead of one (`SpacedNameSplits`,
  `PlayStoreSplits`). The selection screen hands over app labels, and a label such as "Play Store" is split
  into "Play" and "Store".
- When `runCommand` throws, the switch is reverted to `!suspend` and no re-probe follows.
- There are no Activating or Deactivating states, no keep-alive tied to the switch, and no single-flight
  guard on the permission request or the biometric prompt. The selection is not frozen while suspended.
  Only the select-apps button is disabled, and a selection result that arrives anyway is still applied.

## Model

| member | source | states |
|---|---|---|
| `SuspendCommand.Verb` | app/src/main/java/com/example/helloworld/MainActivity.kt:135 | the keyword is "suspend" exactly when suspending and "unsuspend" exactly when not |
| `SuspendCommand.BuildCommand` | app/src/main/java/com/example/helloworld/MainActivity.kt:135-138 | the built string is "cmd package " + verb followed by " " + package for every selected package in list order |
| `SuspendCommand.ArgumentsSnoc` | app/src/main/java/com/example/helloworld/MainActivity.kt:137 | appending one package to the list appends " " + package to the argument text, as each `append` step does |
| `SuspendCommand.CommandTokens` | app/src/main/java/com/example/helloworld/MyUserService.kt:26-33 | when no package name is empty or holds whitespace, the line that `runCommand` executes splits into exactly "cmd", "package", the verb and then each package as its own argument |
| `SuspendCommand.SpacedNameSplits` | app/src/main/java/com/example/helloworld/MyUserService.kt:26-33 | a selected name made of two words joined by a space reaches the executed command as two separate arguments, because neither the selection nor the command builder checks for whitespace |
| `SuspendCommand.PlayStoreSplits` | app/src/main/java/com/example/helloworld/MainActivity.kt:165-167 | the selection ["Play Store"], accepted unchecked from the result, yields the arguments "cmd", "package", "suspend", "Play", "Store" |
| `PackageStatus.ScanSuspended` | app/src/main/java/com/example/helloworld/MainActivity.kt:212-221 | the loop returns true iff every selected package that is installed has FLAG_SUSPENDED; false iff some installed package lacks it; packages that are not installed are skipped, so a selection of only missing packages gives true |
| `PackageStore.ListFromSet` | app/src/main/java/com/example/helloworld/MainActivity.kt:182-188 | the loaded list holds every saved package exactly once and nothing else |
| `PackageStore.SaveLoadPermutation` | app/src/main/java/com/example/helloworld/MainActivity.kt:178-188 | saving a selection without duplicates as a set and loading it back yields a permutation of that selection |
| `Controller.BindRequests` | app/src/main/java/com/example/helloworld/MainActivity.kt:112-125 | nothing is asked of Shizuku when its binder is not alive; the user service is bound iff the permission is granted, otherwise permission 100 is requested |
| `Controller.MainActivity.OnCreate` | app/src/main/java/com/example/helloworld/MainActivity.kt:74-90 | starts with the saved set loaded as the selection (empty when none is saved), the service disconnected and the switch disabled, then runs checkShizukuAndBindService |
| `Controller.MainActivity.LoadSelectedPackages` | app/src/main/java/com/example/helloworld/MainActivity.kt:182-188 | a saved set replaces the selection with its elements, each once; with none saved nothing changes |
| `Controller.MainActivity.SaveSelectedPackages` | app/src/main/java/com/example/helloworld/MainActivity.kt:178-180 | the stored value becomes the set of the selected packages, nothing else changes |
| `Controller.MainActivity.SetChecked` | app/src/main/java/com/example/helloworld/MainActivity.kt:226-236 | the switch write `isChecked = …` of the silent paths: the widget calls the checked-change listener when the value changes, and with the guard up the write changes only the switch value |
| `Controller.MainActivity.OnCheckedChanged` | app/src/main/java/com/example/helloworld/MainActivity.kt:91-104 | under the guard nothing changes; an empty selection reverts the switch to !isChecked with a toast, no command and no prompt; ON with a selection issues the suspend command (or reverts to off without a service); OFF with a selection only shows the biometric prompt |
| `Controller.MainActivity.UserToggle` | app/src/main/java/com/example/helloworld/MainActivity.kt:91-104 | a tap on a disabled switch changes nothing; because the switch is enabled only with a connected service, a tap to ON with a selection always issues exactly the suspend command, a tap to OFF only prompts, and an empty selection leaves the switch where it was |
| `Controller.MainActivity.CheckShizukuAndBindService` | app/src/main/java/com/example/helloworld/MainActivity.kt:112-125 | only the Shizuku requests of `BindRequests` are added, no other state changes |
| `Controller.MainActivity.ExecuteSuspendAction` | app/src/main/java/com/example/helloworld/MainActivity.kt:127-143 | without a user service no command runs and the switch is left at !suspend; with one, exactly the command text for the current selection is started and nothing else changes |
| `Controller.MainActivity.CompleteSuspendAction` | app/src/main/java/com/example/helloworld/MainActivity.kt:145-157 | the finished task is removed; exit code 0 leaves the switch alone before the re-probe, a non-zero code reverts it to !suspend, and both re-probe so that a non-empty selection ends with switch == all installed suspended; an exception reverts to !suspend with no re-probe |
| `Controller.MainActivity.OnSelectAppsResult` | app/src/main/java/com/example/helloworld/MainActivity.kt:161-173 | only an OK result with a non-null list changes anything: it replaces and saves the selection and re-probes it |
| `Controller.MainActivity.UserClicksSelectApps` | app/src/main/java/com/example/helloworld/MainActivity.kt:106-109 | the selection screen opens only from an enabled button |
| `Controller.MainActivity.OnAuthenticationSucceeded` | app/src/main/java/com/example/helloworld/MainActivity.kt:193-195 | success runs the unsuspend issue step: the unsuspend command when the service is connected, otherwise the switch back on |
| `Controller.MainActivity.OnAuthenticationError` | app/src/main/java/com/example/helloworld/MainActivity.kt:196-198 | an authentication error only puts the switch back on; no command is issued |
| `Controller.MainActivity.AuthenticateAndUnsuspend` | app/src/main/java/com/example/helloworld/MainActivity.kt:206-208 | only the biometric prompt is requested |
| `Controller.MainActivity.CheckAppsSuspendedStatus` | app/src/main/java/com/example/helloworld/MainActivity.kt:210-224 | an empty selection changes nothing; otherwise the switch shows whether every installed selected package is suspended and the button is enabled iff it is not |
| `Controller.MainActivity.UpdateSwitchSilent` | app/src/main/java/com/example/helloworld/MainActivity.kt:226-230 | the switch equals the argument, the guard is down again and the listener has done nothing |
| `Controller.MainActivity.RevertSwitchState` | app/src/main/java/com/example/helloworld/MainActivity.kt:232-236 | the switch equals the target, the guard is down again and the listener has done nothing |
| `Controller.MainActivity.OnServiceConnected` | app/src/main/java/com/example/helloworld/MainActivity.kt:41-49 | a live binder connects the user service and enables the switch; a null or dead binder changes nothing |
| `Controller.MainActivity.OnServiceDisconnected` | app/src/main/java/com/example/helloworld/MainActivity.kt:51-57 | the user service is dropped and the switch disabled |
| `Controller.MainActivity.OnBinderReceived` | app/src/main/java/com/example/helloworld/MainActivity.kt:60-62 | runs checkShizukuAndBindService and changes nothing else |
| `Controller.MainActivity.OnRequestPermissionResult` | app/src/main/java/com/example/helloworld/MainActivity.kt:64-72 | code 100 granted runs checkShizukuAndBindService; any other result turns the switch off with a toast |
| `Controller.MainActivity.OnDestroy` | app/src/main/java/com/example/helloworld/MainActivity.kt:238-242 | the user service is unbound |

## Left out

- `AppSelectionActivity.kt` is not part of this model. It is list UI and icon loading. It returns app names
  under `selected_apps`, while `MainActivity` reads `selected_packages`. The screen's result is therefore an
  arbitrary input here (`Option<seq<string>>`). With the shipped code it always lacks the list.
- `MyUserService.kt` is modelled only through the outcome of `runCommand` (an exit code, or a throw) and
  the argument splitting of `Runtime.exec`. Process creation, `waitFor`, and the -1 returned on a local
  exception are not modelled: -1 is just one possible exit code.
- `KeepAliveService.kt`, `KeepAliveAccessibilityService.kt` and `MyApplication.kt` are not part of this
  model. They are notification and theming plumbing with no controller logic.
- Threads and `runOnUiThread` are not modelled as concurrency. A command is issued and later completed by
  a separate call. The connection callbacks' UI updates take effect at once.
- Toast texts, the switch and selection labels, and `Log` calls are left out. Toasts appear only as an
  enumerated `Toast` effect.
- The Shizuku binder calls, the biometric prompt construction, the selection screen launch and the
  shared-preferences I/O appear only as `Effect` entries or as fields.
- An exception thrown by `bindUserService` is caught and logged in the source. It is not modelled.
- OnDestroy: removing the two Shizuku listeners is not modelled. Callbacks that arrive after it are not
  rejected by the model.
- OnCreate: the switch's initial checked state comes from the layout, which is not part of this model. It
  is taken as unchecked.
- `onAuthenticationFailed` is not overridden in the source, so a failed attempt changes nothing and has no
  member.
