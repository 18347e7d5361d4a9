/** The COD verification popup of the checkout page: a first "send OTP"
    step, a resend button behind a 60-second cooldown that a one-second
    interval counts down, and a verify button that needs all six digits.
    Each asynchronous handler is split at its `await`: a Begin method runs
    up to the request and returns what is posted, an End method runs the
    rest once the request has settled, given how it settled. */
module OtpPopup {
  import opened Api
  import opened OrderModel
  import opened PaymentController

  const OtpLength: nat := 6
  const ResendCooldown: int := 60

  /** A toast notification: its text and whether it is a success toast. */
  datatype Toast = Toast(message: string, success: bool)

  /** The parent's callbacks, in the order the popup calls them. */
  datatype Callback = OnVerified | OnClose

  /** The countdown effect applied `ticks` times: while the timer is
      positive an interval lowers it by one each second; at zero or below
      no interval runs. */
  function Countdown(timer: int, ticks: nat): int
  {
    if ticks == 0 then timer
    else Countdown(if timer > 0 then timer - 1 else timer, ticks - 1)
  }

  /** From a non-negative start the countdown falls by one per tick and
      stops at zero. */
  lemma {:induction false} CountdownClamps(timer: int, ticks: nat)
    requires timer >= 0
    ensures Countdown(timer, ticks) == if timer > ticks then timer - ticks else 0
    ensures Countdown(timer, ticks) >= 0
  {
    if ticks > 0 {
      CountdownClamps(if timer > 0 then timer - 1 else timer, ticks - 1);
    }
  }

  /** After a send or resend the resend button stays locked for exactly
      ResendCooldown ticks. */
  lemma ResendUnlocksAfterCooldown(ticks: nat)
    ensures Countdown(ResendCooldown, ticks) <= 0 <==> ticks >= ResendCooldown
  {
    CountdownClamps(ResendCooldown, ticks);
  }

  /** The resend button's rule, `disabled={loadingForResend || resendTimer > 0}`:
      enabled when no resend is in flight and the cooldown has run out. */
  predicate ResendButtonEnabled(loadingForResend: bool, resendTimer: int)
  {
    !loadingForResend && resendTimer <= 0
  }

  /** After a successful send or resend (timer at ResendCooldown, no resend
      in flight) the resend button is enabled again exactly once
      ResendCooldown ticks have passed, and while a resend is loading it is
      never enabled. */
  lemma ResendButtonUnlocks(ticks: nat)
    ensures ResendButtonEnabled(false, Countdown(ResendCooldown, ticks)) <==> ticks >= ResendCooldown
    ensures !ResendButtonEnabled(true, Countdown(ResendCooldown, ticks))
  {
    ResendUnlocksAfterCooldown(ticks);
  }

  class Popup {
    const phone: string
    const orderId: Option<OrderId>
    var otp: string
    var sent: bool
    var loading: bool
    var loadingForResend: bool
    var resendTimer: int

    /** The timer stays within the cooldown and the input within the
        six characters the field accepts. */
    ghost predicate Valid()
      reads this
    {
      0 <= resendTimer <= ResendCooldown && |otp| <= OtpLength
    }

    constructor (phone: string, orderId: Option<OrderId>)
      ensures Valid()
      ensures this.phone == phone && this.orderId == orderId
      ensures otp == "" && !sent && !loading && !loadingForResend && resendTimer == 0
    {
      this.phone := phone;
      this.orderId := orderId;
      otp := "";
      sent := false;
      loading := false;
      loadingForResend := false;
      resendTimer := 0;
    }

    /** `disabled={loading}` on the send button. These predicates are the
        buttons' `disabled` rules only: the send button is rendered while
        nothing has been sent (`!sent`), the input and the verify and
        resend buttons once something has. */
    predicate SendEnabled()
      reads this
    {
      !loading
    }

    /** `disabled={loading || otp.length < 6}` on the verify button. */
    predicate VerifyEnabled()
      reads this
    {
      !loading && |otp| >= OtpLength
    }

    /** The resend button of this popup. */
    predicate ResendEnabled()
      reads this
    {
      ResendButtonEnabled(loadingForResend, resendTimer)
    }

    /** One second of the countdown interval. */
    method Tick()
      requires Valid()
      modifies this
      ensures Valid()
      ensures resendTimer == Countdown(old(resendTimer), 1)
      ensures old(resendTimer) > 0 ==> resendTimer == old(resendTimer) - 1
      ensures otp == old(otp) && sent == old(sent)
      ensures loading == old(loading) && loadingForResend == old(loadingForResend)
    {
      if resendTimer > 0 {
        resendTimer := resendTimer - 1;
      }
    }

    /** Typing or pasting into the input: `maxLength={6}` keeps the first
        six characters. */
    method Input(value: string)
      requires Valid()
      modifies this
      ensures Valid()
      ensures otp == if |value| <= OtpLength then value else value[..OtpLength]
      ensures sent == old(sent) && resendTimer == old(resendTimer)
      ensures loading == old(loading) && loadingForResend == old(loadingForResend)
    {
      if |value| <= OtpLength {
        otp := value;
      } else {
        otp := value[..OtpLength];
      }
    }

    /** `sendOtp` up to its request: the spinner starts and the phone is posted. */
    method BeginSend() returns (posted: string)
      requires Valid()
      modifies this
      ensures Valid()
      ensures posted == phone && loading
      ensures !SendEnabled() && !VerifyEnabled()
      ensures otp == old(otp) && sent == old(sent) && resendTimer == old(resendTimer)
      ensures loadingForResend == old(loadingForResend)
    {
      loading := true;
      posted := phone;
    }

    /** The rest of `sendOtp`: on success the entry step opens and the
        cooldown starts at 60; on failure nothing but the spinner changes. */
    method EndSend(result: HttpResult) returns (toast: Toast)
      requires Valid()
      modifies this
      ensures Valid()
      ensures !loading && SendEnabled()
      ensures Succeeded(result) ==>
        sent && resendTimer == ResendCooldown && toast == Toast("OTP sent successfully!", true)
      ensures Succeeded(result) ==> !ResendEnabled()
      ensures !Succeeded(result) ==>
        && sent == old(sent) && resendTimer == old(resendTimer)
        && toast == Toast(ErrorMessage(result, "Failed to send OTP"), false)
      ensures otp == old(otp) && loadingForResend == old(loadingForResend)
    {
      if Succeeded(result) {
        toast := Toast("OTP sent successfully!", true);
        sent := true;
        resendTimer := ResendCooldown;
      } else {
        toast := Toast(ErrorMessage(result, "Failed to send OTP"), false);
      }
      loading := false;
    }

    /** `resendOtp` up to its request: while the cooldown runs it returns
        without doing anything. */
    method BeginResend() returns (posted: Option<string>)
      requires Valid()
      modifies this
      ensures Valid()
      ensures posted.Some? <==> old(resendTimer) <= 0
      ensures old(ResendEnabled()) ==> posted.Some?
      ensures posted.Some? ==> posted.value == phone && loadingForResend && !ResendEnabled()
      ensures posted.None? ==> loadingForResend == old(loadingForResend)
      ensures otp == old(otp) && sent == old(sent) && resendTimer == old(resendTimer)
      ensures loading == old(loading)
    {
      if resendTimer > 0 {
        return None;
      }
      loadingForResend := true;
      posted := Some(phone);
    }

    /** The rest of `resendOtp`: success restarts the cooldown. */
    method EndResend(result: HttpResult) returns (toast: Toast)
      requires Valid()
      modifies this
      ensures Valid()
      ensures !loadingForResend
      ensures Succeeded(result) ==>
        resendTimer == ResendCooldown && toast == Toast("OTP resent successfully!", true)
      ensures Succeeded(result) ==> !ResendEnabled()
      ensures !Succeeded(result) ==> (ResendEnabled() <==> old(resendTimer) <= 0)
      ensures !Succeeded(result) ==>
        resendTimer == old(resendTimer) && toast == Toast(ErrorMessage(result, "Failed to resend OTP"), false)
      ensures otp == old(otp) && sent == old(sent) && loading == old(loading)
    {
      if Succeeded(result) {
        toast := Toast("OTP resent successfully!", true);
        resendTimer := ResendCooldown;
      } else {
        toast := Toast(ErrorMessage(result, "Failed to resend OTP"), false);
      }
      loadingForResend := false;
    }

    /** `verifyOtp` up to its request: phone, OTP and the orderId prop are
        posted as they are. */
    method BeginVerify() returns (posted: CodRequest)
      requires Valid()
      modifies this
      ensures Valid()
      ensures posted == CodRequest(phone, otp, orderId) && loading
      ensures !SendEnabled() && !VerifyEnabled()
      ensures otp == old(otp) && sent == old(sent) && resendTimer == old(resendTimer)
      ensures loadingForResend == old(loadingForResend)
    {
      loading := true;
      posted := CodRequest(phone, otp, orderId);
    }

    /** The rest of `verifyOtp`: on success onVerified and then onClose are
        called; on failure neither is. */
    method EndVerify(result: HttpResult) returns (toast: Toast, callbacks: seq<Callback>)
      requires Valid()
      modifies this
      ensures Valid()
      ensures !loading && SendEnabled()
      ensures VerifyEnabled() <==> |otp| >= OtpLength
      ensures Succeeded(result) ==>
        callbacks == [OnVerified, OnClose] && toast == Toast("OTP verified successfully!", true)
      ensures !Succeeded(result) ==>
        callbacks == [] && toast == Toast(ErrorMessage(result, "Invalid OTP"), false)
      ensures otp == old(otp) && sent == old(sent) && resendTimer == old(resendTimer)
      ensures loadingForResend == old(loadingForResend)
    {
      if Succeeded(result) {
        toast := Toast("OTP verified successfully!", true);
        callbacks := [OnVerified, OnClose];
      } else {
        toast := Toast(ErrorMessage(result, "Invalid OTP"), false);
        callbacks := [];
      }
      loading := false;
    }
  }

  /** With the input capped at six characters, an enabled verify button
      means exactly six characters and no request in flight. */
  lemma VerifyEnabledMeansFullOtp(p: Popup)
    requires p.Valid() && p.VerifyEnabled()
    ensures |p.otp| == OtpLength && !p.loading
  {
  }
}
