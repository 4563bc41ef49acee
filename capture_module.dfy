/** The iOS module object (class ExpoCaptureModule in ios/ExpoCaptureModule.swift): the flag
    and the secure text field are fields that its methods update in place.  Every method is
    tied to the value model in CaptureSpec through Model().
 */
module ExpoCapture {
  import CaptureSpec

  /** The dummy UITextField laid over the window.  `secureEntry` is `isSecureTextEntry`;
      `attached` stands for the splice of the window's layer under the field's layer. */
  class SecureTextField {
    var secureEntry: bool
    var attached: bool

    /** UITextField.init(frame:): a plain field, not secure and not in any window. */
    constructor ()
      ensures !secureEntry && !attached
    {
      secureEntry := false;
      attached := false;
    }
  }

  class CaptureModule {
    /** Whether the device runs iOS 13 or later (`#available(iOS 13, *)`). */
    const ios13: bool
    /** isScreenCapturePrevented */
    var prevented: bool
    /** secureTextField */
    var field: SecureTextField?
    /** The number of text fields this module has constructed. */
    ghost var built: nat

    ghost function Model(): CaptureSpec.Guard
      reads this, field
    {
      CaptureSpec.Guard(
        prevented,
        if field == null then CaptureSpec.None
        else CaptureSpec.Some(CaptureSpec.Overlay(field.secureEntry, field.attached)),
        built)
    }

    ghost predicate Valid()
      reads this, field
    {
      CaptureSpec.Valid(Model())
    }

    /** Module load: not prevented and no text field. */
    constructor (ios13: bool)
      ensures this.ios13 == ios13
      ensures Valid() && Model() == CaptureSpec.Initial
    {
      this.ios13 := ios13;
      prevented := false;
      field := null;
      built := 0;
    }

    /** activateSecureTextField */
    method ActivateSecureTextField()
      modifies field
      ensures field == old(field)
      ensures Model() == CaptureSpec.Activate(old(Model()))
    {
      if field != null {
        field.secureEntry := true;
      }
    }

    /** deactivateSecureTextField */
    method DeactivateSecureTextField()
      modifies field
      ensures field == old(field)
      ensures Model() == CaptureSpec.Deactivate(old(Model()))
    {
      if field != null {
        field.secureEntry := false;
      }
    }

    /** addSecureTextField.  The key window is looked up only on iOS 13 and later, and the
        lookup force-unwraps, so the caller must guarantee that a key window exists there. */
    method AddSecureTextField(keyWindow: bool)
      requires ios13 ==> keyWindow
      modifies this
      ensures fresh(field)
      ensures Model() == CaptureSpec.AddField(old(Model()), ios13)
    {
      field := new SecureTextField();
      built := built + 1;
      ActivateSecureTextField();
      if !ios13 {
        return;
      }
      field.attached := true;
    }

    /** removeSecureTextField: secure entry off, window layer taken back out; the text field
        reference is kept. */
    method RemoveSecureTextField()
      modifies field
      ensures field == old(field)
      ensures Model() == CaptureSpec.RemoveField(old(Model()))
    {
      DeactivateSecureTextField();
      if field != null {
        field.attached := false;
      }
    }

    /** preventScreenCapture.  A text field is built (and the key window looked up) only on
        iOS 13 and later when capture is not yet prevented. */
    method PreventScreenCapture(keyWindow: bool)
      requires Valid()
      requires ios13 && !prevented ==> keyWindow
      modifies this
      ensures Valid()
      ensures Model() == CaptureSpec.Prevent(old(Model()), ios13)
      ensures ios13 && !old(prevented) ==> fresh(field)
      ensures !ios13 || old(prevented) ==> field == old(field)
    {
      if ios13 {
        if !prevented {
          prevented := true;
          AddSecureTextField(keyWindow);
        }
      }
      CaptureSpec.StepPreservesValid(old(Model()), CaptureSpec.PreventCall, ios13);
    }

    /** allowScreenCapture.  Clears the flag and detaches the text field, whichever number of
        prevent calls came before. */
    method AllowScreenCapture()
      requires Valid()
      modifies this, field
      ensures Valid()
      ensures Model() == CaptureSpec.Allow(old(Model()))
      ensures field == old(field)
    {
      if prevented {
        prevented := false;
        RemoveSecureTextField();
      }
      CaptureSpec.StepPreservesValid(old(Model()), CaptureSpec.AllowCall, ios13);
    }

    /** activeListener: the app enters the foreground. */
    method ActiveListener()
      requires Valid()
      modifies field
      ensures Valid()
      ensures Model() == CaptureSpec.OnForeground(old(Model()))
      ensures field == old(field)
    {
      if prevented {
        ActivateSecureTextField();
      }
      CaptureSpec.StepPreservesValid(old(Model()), CaptureSpec.Foreground, ios13);
    }

    /** resignListener: the app enters the background. */
    method ResignListener()
      requires Valid()
      modifies field
      ensures Valid()
      ensures Model() == CaptureSpec.OnBackground(old(Model()))
      ensures field == old(field)
    {
      if prevented {
        DeactivateSecureTextField();
      }
      CaptureSpec.StepPreservesValid(old(Model()), CaptureSpec.Background, ios13);
    }
  }

  /** A caller's view: prevent twice, go to the background and back, then allow.  What it
      asserts follows from the method contracts alone. */
  method PreventBackgroundForegroundAllow()
  {
    var m := new CaptureModule(true);
    m.PreventScreenCapture(true);
    var first := m.field;
    m.PreventScreenCapture(false);
    assert m.field == first && m.built == 1;
    m.ResignListener();
    assert m.prevented && !m.field.secureEntry && m.field.attached;
    m.ActiveListener();
    assert m.field == first && m.field.secureEntry && m.field.attached && m.built == 1;
    m.AllowScreenCapture();
    assert !m.prevented && m.field == first && !m.field.secureEntry && !m.field.attached;
  }
}
