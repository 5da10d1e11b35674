/**
 * The authorization handshake run right after connecting
 * (`TelegramLogic._authorize`). The prompt collaborator's answers and the
 * transport's replies are given as a script; the result is whether the
 * session ended up authorized, and the calls made, in order.
 */
module Authorization {
  import opened Wrappers
  import opened Transport

  /** What a sign-in with the one-time code can do: succeed, demand the
      second-factor password, reject the code, or fail in any other way. */
  datatype CodeSignIn = SignedIn | PasswordNeeded | CodeInvalid | SignInError

  /** Why the handshake raised, ending the run. */
  datatype AbortReason =
    | PhoneCancelled
    | SendCodeFailed
    | CodeCancelled
    | InvalidCode
    | CodeSignInFailed
    | PasswordCancelled
    | PasswordRejected

  datatype AuthResult = Authorized | Aborted(reason: AbortReason)

  /** The environment of one handshake. A prompt answer is `None` when the
      dialog was cancelled; `codeSent` and `passwordAccepted` say whether the
      code request and the password sign-in succeed or raise. */
  datatype AuthScript = AuthScript(
    alreadyAuthorized: bool,
    phone: Option<string>,
    codeSent: bool,
    code: Option<string>,
    codeSignIn: CodeSignIn,
    password: Option<string>,
    passwordAccepted: bool)

  /** Python truthiness of a prompt answer: neither cancelled nor empty. */
  predicate Given(answer: Option<string>) {
    answer.Some? && answer.value != ""
  }

  /** The shape of the call at position `i` of the handshake protocol:
      probe, ask for the phone, request a code, ask for the code, sign in
      with it, ask for the password, sign in with the password. */
  predicate ProtocolStep(i: nat, e: Event) {
    match i
    case 0 => e == CheckAuthorized
    case 1 => e == Prompt(PhonePrompt)
    case 2 => e.SendCode?
    case 3 => e == Prompt(CodePrompt)
    case 4 => e.SignInWithCode?
    case 5 => e == Prompt(PasswordPrompt)
    case 6 => e.SignInWithPassword?
    case _ => false
  }

  /** The calls made are a prefix of the protocol, in order, each at most once. */
  predicate FollowsProtocol(calls: seq<Event>) {
    forall i :: 0 <= i < |calls| ==> ProtocolStep(i, calls[i])
  }

  /** The handshake. The session is authorized when the probe says so, or when
      phone and code are given, the code is sent and the code sign-in succeeds,
      possibly after a password sign-in that the transport accepts. */
  function Authorize(s: AuthScript): (r: (AuthResult, seq<Event>))
    ensures 1 <= |r.1| <= 7 && FollowsProtocol(r.1)
    ensures s.alreadyAuthorized ==> r == (Authorized, [CheckAuthorized])
    ensures r.0.Authorized? <==>
      || s.alreadyAuthorized
      || (&& Given(s.phone) && s.codeSent && Given(s.code)
          && (|| s.codeSignIn == SignedIn
              || (s.codeSignIn == PasswordNeeded && Given(s.password) && s.passwordAccepted)))
    ensures !s.alreadyAuthorized && !Given(s.phone) ==>
      r.0 == Aborted(PhoneCancelled) && forall i :: 0 <= i < |r.1| ==> !r.1[i].SendCode?
    ensures forall i :: 0 <= i < |r.1| && r.1[i].SendCode? ==> Some(r.1[i].phone) == s.phone
    ensures forall i :: 0 <= i < |r.1| && r.1[i].SignInWithCode? ==>
      Some(r.1[i].phone) == s.phone && Some(r.1[i].code) == s.code
    ensures forall i :: 0 <= i < |r.1| && r.1[i].SignInWithPassword? ==>
      s.codeSignIn == PasswordNeeded && Some(r.1[i].password) == s.password
    ensures r.0 == Aborted(InvalidCode) <==>
      !s.alreadyAuthorized && Given(s.phone) && s.codeSent && Given(s.code) && s.codeSignIn == CodeInvalid
  {
    if s.alreadyAuthorized then (Authorized, [CheckAuthorized])
    else
      var asked := [CheckAuthorized, Prompt(PhonePrompt)];
      if !Given(s.phone) then (Aborted(PhoneCancelled), asked)
      else
        var phone := s.phone.value;
        var requested := asked + [SendCode(phone)];
        if !s.codeSent then (Aborted(SendCodeFailed), requested)
        else
          var prompted := requested + [Prompt(CodePrompt)];
          if !Given(s.code) then (Aborted(CodeCancelled), prompted)
          else
            var signed := prompted + [SignInWithCode(phone, s.code.value)];
            match s.codeSignIn
            case SignedIn => (Authorized, signed)
            case CodeInvalid => (Aborted(InvalidCode), signed)
            case SignInError => (Aborted(CodeSignInFailed), signed)
            case PasswordNeeded =>
              var secondFactor := signed + [Prompt(PasswordPrompt)];
              if !Given(s.password) then (Aborted(PasswordCancelled), secondFactor)
              else
                var done := secondFactor + [SignInWithPassword(s.password.value)];
                if s.passwordAccepted then (Authorized, done)
                else (Aborted(PasswordRejected), done)
  }

  /** A cancelled or empty answer at any prompt aborts the handshake right
      after that prompt, before the next transport call. */
  lemma CancelledPromptAborts(s: AuthScript, i: nat)
    requires i < |Authorize(s).1| && Authorize(s).1[i].Prompt?
    requires !Given(match Authorize(s).1[i].kind
                    case PhonePrompt => s.phone
                    case CodePrompt => s.code
                    case PasswordPrompt => s.password)
    ensures Authorize(s).0.Aborted? && |Authorize(s).1| == i + 1
  {
  }
}
