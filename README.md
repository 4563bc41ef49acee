# expo-capture: the iOS capture guard

expo-capture lets an app turn screen-capture prevention on and off. On iOS the native module
keeps one flag, `isScreenCapturePrevented`, and one optional `UITextField`. When capture is
prevented, the text field is laid over the key window in secure-entry mode, so the system
redacts screenshots and recordings. Four entry points drive this state:

- `preventScreenCapture` (iOS 13 and later only)
- `allowScreenCapture`
- the foreground handler `activeListener`
- the background handler `resignListener`

This project models that state machine in Dafny in two layers:

- `capture_spec.dfy` (module `CaptureSpec`) models it on values. A `Guard` holds the flag, the
  optional overlay (`secureEntry`, `attached`) and the number of overlays built so far. Each
  entry point and helper is a function. `Run` applies a sequence of calls. The lemmas state what
  the module promises about single calls and about whole sequences of calls.
- `capture_module.dfy` (module `ExpoCapture`) models the Swift class itself. `CaptureModule` has
  the fields `prevented` and `field: SecureTextField?`. Each Swift method is a method that
  updates those fields in place. Each method's `ensures` ties the new state to the value model
  (`Model() == CaptureSpec.Prevent(old(Model()), ios13)`). The four entry-point methods
  (`PreventScreenCapture`, `AllowScreenCapture`, `ActiveListener`, `ResignListener`) also
  require and ensure the invariant `Valid()`. The four private helpers only tie the new state to
  the value model, because they run between the flag update and the field update. The method
  that builds a text field also promises that the field is `fresh`.

The value-model functions correspond to the Swift methods as follows:

- `CaptureSpec.Activate` is `activateSecureTextField` (ios/ExpoCaptureModule.swift:80-84).
- `CaptureSpec.Deactivate` is `deactivateSecureTextField` (89-93).
- `CaptureSpec.AddField` is `addSecureTextField` (98-133).
- `CaptureSpec.RemoveField` is `removeSecureTextField` (138-144).
- `CaptureSpec.Prevent` is `preventScreenCapture` (149-156).
- `CaptureSpec.Allow` is `allowScreenCapture` (161-166).
- `CaptureSpec.OnForeground` is `activeListener` (175-179).
- `CaptureSpec.OnBackground` is `resignListener` (182-186).

What is proved about each function is in the lemma rows of the table below.

The iOS version is the constant `ios13` ("iOS 13 or later"). The key-window lookup in
`addSecureTextField` force-unwraps, so it becomes a precondition: a key window exists. That
precondition applies only to the calls that actually do the lookup (iOS 13 or later, guard not
yet prevented). The layer surgery becomes the abstract `attached` bit: splicing sets it and
un-splicing clears it.

Behaviour of the code that the model keeps as written:

- `allowScreenCapture` does not destroy the overlay. The `secureTextField` reference is kept,
  with secure entry off and its layer un-spliced. The next off-to-on `preventScreenCapture`
  builds a new text field rather than reusing the old one. So "overlay exists iff prevented"
  does not hold. What holds is "overlay attached iff prevented" (`AttachedIffPrevented`,
  `ReachableCoherent`). Over prevent and allow calls alone, "overlay attached and secure iff
  prevented" also holds (`ReachableProtectedIffPrevented`). A background notification breaks the
  secure half (`BackgroundDropsProtection`).
- There is a single flag with no reference counting. One `allowScreenCapture` cancels any
  number of earlier `preventScreenCapture` calls (`AllowCancelsAllPrevents`). The TODO at
  ios/ExpoCaptureModule.swift:11-13 flags this.
- While prevented, the background handler turns secure entry off. The foreground handler turns
  it back on.
- No error is surfaced to the caller. A missing key window crashes the force-unwrap. It is not
  reported as a rejection.

## Model

| member | source | states |
|---|---|---|
| `CaptureSpec.InitialValid` | ios/ExpoCaptureModule.swift:73-75 | At module load the flag is false and there is no text field. The invariant holds and nothing is attached or protected. |
| `CaptureSpec.ActivateWithoutField` | ios/ExpoCaptureModule.swift:80-93 | `activateSecureTextField` and `deactivateSecureTextField` change nothing when no text field exists. |
| `CaptureSpec.ActivateEffect` | ios/ExpoCaptureModule.swift:80-93 | With a text field, activate and deactivate set its secure-entry bit to on and off. The attachment, the flag and the number of fields built are unchanged. |
| `CaptureSpec.PreventIdempotent` | ios/ExpoCaptureModule.swift:149-156 | `preventScreenCapture` on an already prevented guard changes nothing. Two prevents in a row equal one. |
| `CaptureSpec.PreventInstallsNewOverlay` | ios/ExpoCaptureModule.swift:149-156 | On iOS 13+ from the allowed state, prevent sets the flag. It installs a newly built overlay (built count + 1) that is secure and attached, replacing any kept field. |
| `CaptureSpec.PreventBeforeIos13` | ios/ExpoCaptureModule.swift:150 | Below iOS 13, `preventScreenCapture` leaves the whole state unchanged. |
| `CaptureSpec.AllowEffect` | ios/ExpoCaptureModule.swift:161-166 | When allowed, allow is a no-op. When prevented, it clears the flag and leaves the same text field with secure entry off and detached. No field is built. |
| `CaptureSpec.AllowIdempotent` | ios/ExpoCaptureModule.swift:161-166 | Two allows in a row equal one. |
| `CaptureSpec.HandlersEffect` | ios/ExpoCaptureModule.swift:175-186 | When allowed, the foreground and background handlers do nothing. When prevented, they only set secure entry on and off. The flag, the attachment and the field count are unchanged. |
| `CaptureSpec.BackgroundThenForeground` | ios/ExpoCaptureModule.swift:175-186 | A background followed by a foreground notification restores a protected guard exactly. |
| `CaptureSpec.StepPreservesValid` | ios/ExpoCaptureModule.swift:149-186 | Every entry point preserves the invariant. Prevented implies an attached overlay. Secure entry or attachment implies prevented. A field exists iff one was built. |
| `CaptureSpec.AttachedIffPrevented` | ios/ExpoCaptureModule.swift:73-75 | Under the invariant, the overlay is attached exactly when the flag is set, and protection implies the flag. |
| `CaptureSpec.PreventAllowRoundTrip` | ios/ExpoCaptureModule.swift:149-166 | On iOS 13+, prevent then allow from the allowed state leaves the flag false and nothing attached or secure. The one overlay built by prevent is kept. |
| `CaptureSpec.RunPreservesValid` | ios/ExpoCaptureModule.swift:149-186 | Every sequence of calls from a valid state ends in a valid state. |
| `CaptureSpec.ReachableCoherent` | ios/ExpoCaptureModule.swift:73-186 | For every sequence of calls from module load, the invariant holds and the overlay is attached iff capture is prevented. |
| `CaptureSpec.RepeatedPreventIsOne` | ios/ExpoCaptureModule.swift:151-154 | Any positive number of prevent calls has the effect of one. Only one overlay is built. |
| `CaptureSpec.AllowCancelsAllPrevents` | ios/ExpoCaptureModule.swift:11-13 | A single allow after any number of prevents leaves capture allowed and the invariant intact. Nothing is attached and no overlay is left in secure mode (last call wins, no reference count). |
| `CaptureSpec.HandlersOnlyToggleSecureEntry` | ios/ExpoCaptureModule.swift:175-186 | Any sequence of foreground and background notifications leaves the flag, the field count, the field's presence and the attachment unchanged. |
| `CaptureSpec.OverlayPerOffOnTransition` | ios/ExpoCaptureModule.swift:149-156 | Over any sequence of calls, exactly one overlay is built for each call that turns the flag from false to true, and none for any other call. |
| `CaptureSpec.NothingChangesBeforeIos13` | ios/ExpoCaptureModule.swift:150 | Below iOS 13, every sequence of calls leaves the guard in its initial state. |
| `CaptureSpec.PreventAllowKeepProtection` | ios/ExpoCaptureModule.swift:149-166 | From a valid guard whose flag implies protection, any sequence of prevent and allow calls keeps the invariant, and the overlay is attached and secure exactly when capture is prevented. |
| `CaptureSpec.ReachableProtectedIffPrevented` | ios/ExpoCaptureModule.swift:149-166 | For every sequence of prevent and allow calls from module load, captures are redacted exactly while capture is prevented. |
| `CaptureSpec.BackgroundDropsProtection` | ios/ExpoCaptureModule.swift:182-186 | Prevent followed by a background notification leaves the guard prevented with the overlay attached but not secure. The coherence over all calls is therefore stated in terms of attachment. |
| `ExpoCapture.SecureTextField.constructor` | ios/ExpoCaptureModule.swift:100 | A newly constructed text field is neither secure nor attached. |
| `ExpoCapture.CaptureModule.constructor` | ios/ExpoCaptureModule.swift:73-75 | The module starts with the flag false and no text field, in the initial model state. |
| `ExpoCapture.CaptureModule.ActivateSecureTextField` | ios/ExpoCaptureModule.swift:80-84 | Sets the existing field's secure entry on, or does nothing without a field. The reference is unchanged. |
| `ExpoCapture.CaptureModule.DeactivateSecureTextField` | ios/ExpoCaptureModule.swift:89-93 | Sets the existing field's secure entry off, or does nothing without a field. The reference is unchanged. |
| `ExpoCapture.CaptureModule.AddSecureTextField` | ios/ExpoCaptureModule.swift:98-133 | Installs a fresh text field, makes it secure and, on iOS 13+, attaches it. Requires a key window where the lookup runs. |
| `ExpoCapture.CaptureModule.RemoveSecureTextField` | ios/ExpoCaptureModule.swift:138-144 | Turns secure entry off and detaches the field, keeping the reference. |
| `ExpoCapture.CaptureModule.PreventScreenCapture` | ios/ExpoCaptureModule.swift:149-156 | Follows `CaptureSpec.Prevent` and keeps the invariant. On an off-to-on transition the field is fresh. Otherwise the reference is unchanged. |
| `ExpoCapture.CaptureModule.AllowScreenCapture` | ios/ExpoCaptureModule.swift:161-166 | Follows `CaptureSpec.Allow`, keeps the invariant and keeps the same field reference. |
| `ExpoCapture.CaptureModule.ActiveListener` | ios/ExpoCaptureModule.swift:175-179 | Follows `CaptureSpec.OnForeground`, keeps the invariant and never replaces the field. |
| `ExpoCapture.CaptureModule.ResignListener` | ios/ExpoCaptureModule.swift:182-186 | Follows `CaptureSpec.OnBackground`, keeps the invariant and never replaces the field. |

## Left out

- The Android module (android/src/main/java/expo/modules/capture/ExpoCaptureModule.kt) holds no state of its own. It sets and clears the window's `FLAG_SECURE` through OS calls, and its reject-then-resolve sequence belongs to a foreign Promise API.
- The TypeScript bridge (src/index.ts, src/ExpoCaptureModule.ts) and the UI components (src/ExpoCaptureView.tsx, src/ExpoCaptureView.web.tsx, example/App.tsx) are thin wrappers over a library event emitter and native-module loader, with no logic of their own.
- NotificationCenter observer registration and removal (ios/ExpoCaptureModule.swift:29-56) and `screenshotListener`/`sendEvent` (168-171) are OS event plumbing. The foreground and background notifications appear only as the calls `Foreground` and `Background`.
- The `DispatchQueue.main.async` hop (ios/ExpoCaptureModule.swift:60-70) is left out, and so is the fact that the promise resolves before the work runs. Each call is modelled as running to completion on the main queue, one after another.
- UIKit geometry, colours, the key-window lookup and the layer-tree surgery (ios/ExpoCaptureModule.swift:99-132, 141-142) are reduced to the `attached` bit. A missing key window, which crashes the force-unwrap at 116 and 123, is a precondition of `ExpoCapture.CaptureModule.PreventScreenCapture` and `ExpoCapture.CaptureModule.AddSecureTextField`. The third force-unwrap, `layer.sublayers!` at 132, is assumed to succeed: the splice always sets `attached`.
- The `addSubview` at ios/ExpoCaptureModule.swift:130 is never undone. Old text fields therefore stay in the window's view hierarchy after `allowScreenCapture`. The model keeps only the current field and does not track those views.
- The iOS 15 versus iOS 13/14 window-lookup variants (111-123) are not told apart. Both become "a key window exists".
