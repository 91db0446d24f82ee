/** The sign-in / sign-up page as a state machine (AuthPage): the mode, the
    step of the three-step sign-up, the code typed into the boxes, the code
    that was sent, the stored contact and name, and the resend countdown.
    Each user action and each firing of the one-second interval is a method.
    The form values of a submit are a parameter, as is the random draw of a
    new code; the calls to the authentication backend are returned as
    requests instead of being made. */
module Signup {
  import opened Text
  import opened Auth
  import OtpInput
  import Countdown
  import opened Options

  /** What a submit leads to. */
  datatype Outcome =
    | Rejected(errors: seq<Field>)                 // the resolver's schema fails
    | LoginRequested(email: string, password: string)
    | OtpSent(code: string, sentTo: string)        // the toast with the code
    | IncompleteCode                               // "Please enter all 4 digits"
    | IncorrectCode                                // "Invalid OTP"
    | Verified
    | SignUpRequested(email: string, password: string, username: string, fullName: string)

  class SignupFlow {
    var isLogin: bool
    var step: Step
    var otpValue: string
    var generatedOtp: string
    var contact: string
    var fullName: string
    /** The resend countdown: seconds shown, `active`, and whether an
        interval is live. */
    var timer: Countdown.Timer

    predicate CanResend()
      reads this
    {
      timer.CanResend()
    }

    /** The states the page can be in: the boxes hold a code, a code was
        sent before the sign-up leaves its first step, login has no steps,
        and the countdown is consistent. */
    predicate Valid()
      reads this
    {
      && OtpInput.IsCode(otpValue)
      && (generatedOtp == [] || (|generatedOtp| == 4 && IsDigits(generatedOtp)))
      && (isLogin ==> step == Credentials)
      && (step != Credentials ==> |generatedOtp| == 4)
      && Countdown.Consistent(timer)
    }

    /** The page opens on the login form with nothing typed or sent. */
    constructor ()
      ensures Valid()
      ensures isLogin && step == Credentials && otpValue == [] && generatedOtp == []
      ensures contact == [] && fullName == [] && timer == Countdown.Idle()
    {
      isLogin, step := true, Credentials;
      otpValue, generatedOtp := [], [];
      contact, fullName := [], [];
      timer := Countdown.Idle();
    }

    /** sendOtp: a fresh code from the draw and a restarted countdown. */
    method SendOtp(draw: int)
      requires Valid() && 1000 <= draw <= 9999
      modifies this
      ensures Valid()
      ensures generatedOtp == GenerateOtp(draw) && timer == Countdown.Start(old(timer))
      ensures !old(timer).active ==> timer == Countdown.StartAsWritten(old(timer))
      ensures isLogin == old(isLogin) && step == old(step) && otpValue == old(otpValue)
      ensures contact == old(contact) && fullName == old(fullName)
    {
      generatedOtp := GenerateOtp(draw);
      timer := Countdown.Start(timer);
    }

    /** onSubmit behind the resolver. A submit the schema of the current
        mode and step rejects changes nothing. A login or the final step
        hands a request to the backend; the first step stores the trimmed
        contact and the name, sends a code and moves on; the code step moves
        on only when the boxes hold exactly the code that was sent. */
    method Submit(v: FormValues, draw: int) returns (outcome: Outcome)
      requires Valid() && 1000 <= draw <= 9999
      modifies this
      ensures Valid()
      ensures isLogin == old(isLogin)
      ensures var errors := Errors(SchemaFor(old(isLogin), old(step)), v);
        errors != [] ==> outcome == Rejected(errors) && unchanged(this)
      ensures Accepts(SchemaFor(old(isLogin), old(step)), v) ==>
        if old(isLogin) then
          outcome == LoginRequested(v.username, v.password) && unchanged(this)
        else if old(step) == Credentials then
          && contact == Trim(v.contact) && fullName == v.fullName
          && generatedOtp == GenerateOtp(draw) && timer == Countdown.Start(old(timer))
          && (!old(timer).active ==> timer == Countdown.StartAsWritten(old(timer)))
          && step == Otp && otpValue == old(otpValue)
          && outcome == OtpSent(generatedOtp, MaskContact(contact))
          && StepDesc(isLogin, step, contact) == "Enter the 4-digit code sent to " + outcome.sentTo
        else if old(step) == Otp then
          if |old(otpValue)| != 4 then outcome == IncompleteCode && unchanged(this)
          else if old(otpValue) != old(generatedOtp) then outcome == IncorrectCode && unchanged(this)
          else
            && outcome == Verified && step == Account && otpValue == []
            && generatedOtp == old(generatedOtp) && contact == old(contact) && fullName == old(fullName)
            && timer == old(timer)
        else
          && outcome == SignUpRequested(LoginIdentifier(contact, v.username), v.password, v.username, fullName)
          && unchanged(this)
    {
      var errors := Errors(SchemaFor(isLogin, step), v);
      if errors != [] {
        return Rejected(errors);
      }
      if isLogin {
        outcome := LoginRequested(v.username, v.password);
      } else if step == Credentials {
        outcome := SubmitContact(v, draw);
      } else if step == Otp {
        outcome := SubmitCode();
      } else {
        outcome := SignUpRequested(LoginIdentifier(contact, v.username), v.password, v.username, fullName);
      }
    }

    /** The first sign-up step, past the resolver. */
    method SubmitContact(v: FormValues, draw: int) returns (outcome: Outcome)
      requires Valid() && !isLogin && step == Credentials && 1000 <= draw <= 9999
      modifies this
      ensures Valid() && isLogin == old(isLogin)
      ensures contact == Trim(v.contact) && fullName == v.fullName
      ensures generatedOtp == GenerateOtp(draw) && timer == Countdown.Start(old(timer))
      ensures step == Otp && otpValue == old(otpValue)
      ensures outcome == OtpSent(generatedOtp, MaskContact(contact))
      ensures !old(timer).active ==> timer == Countdown.StartAsWritten(old(timer))
      ensures StepDesc(isLogin, step, contact) == "Enter the 4-digit code sent to " + outcome.sentTo
    {
      SendOtp(draw);
      contact, fullName, step := Trim(v.contact), v.fullName, Otp;
      outcome := OtpSent(generatedOtp, MaskContact(contact));
    }

    /** The code step, past the resolver: the typed code must be complete
        and equal to the one sent. */
    method SubmitCode() returns (outcome: Outcome)
      requires Valid() && !isLogin && step == Otp
      modifies this
      ensures Valid() && isLogin == old(isLogin)
      ensures |old(otpValue)| != 4 ==> outcome == IncompleteCode && unchanged(this)
      ensures |old(otpValue)| == 4 && old(otpValue) != old(generatedOtp) ==>
        outcome == IncorrectCode && unchanged(this)
      ensures |old(otpValue)| == 4 && old(otpValue) == old(generatedOtp) ==>
        && outcome == Verified && step == Account && otpValue == []
        && generatedOtp == old(generatedOtp) && contact == old(contact) && fullName == old(fullName)
        && timer == old(timer)
    {
      if |otpValue| != 4 {
        outcome := IncompleteCode;
      } else if otpValue != generatedOtp {
        outcome := IncorrectCode;
      } else {
        step := Account;
        otpValue := [];
        outcome := Verified;
      }
    }

    /** A keystroke in box `index` of the code input. */
    method TypeInBox(index: nat, typed: string)
      requires Valid() && index < OtpInput.Boxes
      modifies this
      ensures Valid()
      ensures var d := OtpInput.LastDigit(typed);
        otpValue ==
          if d != [] then
            (if index < |old(otpValue)| then old(otpValue)[index := d[0]] else old(otpValue) + d)
          else if index < |old(otpValue)| then old(otpValue)[..index] + old(otpValue)[index + 1..]
          else old(otpValue)
      ensures isLogin == old(isLogin) && step == old(step) && generatedOtp == old(generatedOtp)
      ensures contact == old(contact) && fullName == old(fullName) && timer == old(timer)
    {
      otpValue := OtpInput.HandleChange(otpValue, index, typed);
    }

    /** Backspace in box `index` of the code input. */
    method BackspaceInBox(index: nat)
      requires Valid() && index < OtpInput.Boxes
      modifies this
      ensures Valid()
      ensures |old(otpValue)| - 1 <= |otpValue| <= |old(otpValue)|
      ensures otpValue ==
        if index < |old(otpValue)| then old(otpValue)[..index] + old(otpValue)[index + 1..]
        else if index == |old(otpValue)| && index > 0 then old(otpValue)[..index - 1]
        else old(otpValue)
      ensures isLogin == old(isLogin) && step == old(step) && generatedOtp == old(generatedOtp)
      ensures contact == old(contact) && fullName == old(fullName) && timer == old(timer)
    {
      otpValue := OtpInput.Backspace(otpValue, index);
    }

    /** A paste anywhere over the code input. */
    method PasteIntoBoxes(clipboard: string)
      requires Valid()
      modifies this
      ensures Valid()
      ensures otpValue == OtpInput.Paste(clipboard)
      ensures isLogin == old(isLogin) && step == old(step) && generatedOtp == old(generatedOtp)
      ensures contact == old(contact) && fullName == old(fullName) && timer == old(timer)
    {
      otpValue := OtpInput.Paste(clipboard);
    }

    /** handleResend, reachable only through the button that the code step
        shows while resending is allowed: the boxes are cleared and a new
        code is sent to the stored contact. Otherwise nothing happens. */
    method Resend(draw: int) returns (outcome: Option<Outcome>)
      requires Valid() && 1000 <= draw <= 9999
      modifies this
      ensures Valid()
      ensures isLogin == old(isLogin) && step == old(step)
      ensures contact == old(contact) && fullName == old(fullName)
      ensures !old(isLogin) && old(step) == Otp && old(CanResend()) ==>
        && otpValue == [] && generatedOtp == GenerateOtp(draw)
        && timer == Countdown.Start(old(timer)) && !CanResend()
        && outcome == Some(OtpSent(generatedOtp, MaskContact(contact)))
        && timer == Countdown.StartAsWritten(old(timer))
        && StepDesc(isLogin, step, contact) == "Enter the 4-digit code sent to " + outcome.value.sentTo
      ensures !(!old(isLogin) && old(step) == Otp && old(CanResend())) ==>
        outcome == None && unchanged(this)
    {
      if !isLogin && step == Otp && CanResend() {
        otpValue := [];
        SendOtp(draw);
        outcome := Some(OtpSent(generatedOtp, MaskContact(contact)));
      } else {
        outcome := None;
      }
    }

    /** The "Sign up" / "Login" link: flips the mode and starts over at the
        first step with both codes cleared. The countdown, the stored contact
        and the stored name are left as they are. */
    method SwitchMode()
      requires Valid()
      modifies this
      ensures Valid()
      ensures isLogin == !old(isLogin) && step == Credentials
      ensures otpValue == [] && generatedOtp == []
      ensures contact == old(contact) && fullName == old(fullName) && timer == old(timer)
    {
      isLogin := !isLogin;
      step := Credentials;
      otpValue := [];
      generatedOtp := [];
    }

    /** One firing of the countdown's interval. */
    method Tick()
      requires Valid()
      modifies this
      ensures Valid()
      ensures timer == Countdown.Tick(old(timer))
      ensures isLogin == old(isLogin) && step == old(step) && otpValue == old(otpValue)
      ensures generatedOtp == old(generatedOtp) && contact == old(contact) && fullName == old(fullName)
    {
      timer := Countdown.Tick(timer);
    }
  }

}
