// signup/page.tsx: the checks `handleSignup` makes, in order, before it
// asks the auth provider to create the account, and how it ends.

module Signup {
  import opened Common
  import Strs

  const MinPasswordLength: nat := 6
  const MismatchError: string := "비밀번호가 일치하지 않습니다."
  const TooShortError: string := "비밀번호는 최소 6자 이상이어야 합니다."
  const FailureError: string := "회원가입 중 오류가 발생했습니다."

  /** How `supabase.auth.signUp` ended: an account created, an error object
      with its message, or a throw. */
  datatype SignUpOutcome = Created | ProviderError(message: string) | Threw

  /** The credentials `signUp` receives. */
  datatype Credentials = Credentials(email: string, password: string)

  /** The message the checks leave before the provider is asked, if any:
      a mismatch is reported ahead of a short password. */
  function Precheck(password: string, confirm: string): (r: Option<string>)
    ensures password != confirm <==> r == Some(MismatchError)
    ensures password == confirm && Strs.Utf16Length(password) < MinPasswordLength <==> r == Some(TooShortError)
    ensures r.None? <==> password == confirm && Strs.Utf16Length(password) >= MinPasswordLength
  {
    if password != confirm then Some(MismatchError)
    else if Strs.Utf16Length(password) < MinPasswordLength then Some(TooShortError)
    else None
  }

  class SignupForm {
    var email: string
    var password: string
    var confirmPassword: string
    var error: Option<string>
    var isLoading: bool
    /** Whether the redirect to `/login` has been scheduled. */
    var redirectScheduled: bool

    constructor()
      ensures email == [] && password == [] && confirmPassword == []
      ensures error == None && !isLoading && !redirectScheduled
    {
      email := [];
      password := [];
      confirmPassword := [];
      error := None;
      isLoading := false;
      redirectScheduled := false;
    }

    /** `handleSignup`. `outcome` is how the provider call would end and
        `called` the credentials it was given, if it was called at all. The
        error is cleared up front, so a created account leaves no error;
        loading ends false on every path. */
    method HandleSignup(outcome: SignUpOutcome) returns (called: Option<Credentials>)
      modifies this`error, this`isLoading, this`redirectScheduled
      ensures !isLoading
      ensures called.Some? <==> Precheck(password, confirmPassword).None?
      ensures called.Some? ==> called.value == Credentials(email, password)
      ensures called.None? ==> error == Precheck(password, confirmPassword) && redirectScheduled == old(redirectScheduled)
      ensures called.Some? && outcome == Created ==> error == None && redirectScheduled
      ensures called.Some? && outcome.ProviderError? ==>
        error == Some(outcome.message) && redirectScheduled == old(redirectScheduled)
      ensures called.Some? && outcome == Threw ==> error == Some(FailureError) && redirectScheduled == old(redirectScheduled)
    {
      isLoading := true;
      error := None;
      called := None;
      if password != confirmPassword {
        error := Some(MismatchError);
        isLoading := false;
        return;
      }
      if Strs.Utf16Length(password) < MinPasswordLength {
        error := Some(TooShortError);
        isLoading := false;
        return;
      }
      called := Some(Credentials(email, password));
      match outcome {
        case ProviderError(m) => error := Some(m);
        case Created => redirectScheduled := true;
        case Threw => error := Some(FailureError);
      }
      isLoading := false;
    }
  }

  /** The length rule counts UTF-16 code units, as JavaScript's `length`
      does: three characters outside the Basic Multilingual Plane pass it. */
  lemma AstralPasswordLongEnough()
    ensures Precheck("\U{1F600}\U{1F600}\U{1F600}", "\U{1F600}\U{1F600}\U{1F600}").None?
  {
    assert Strs.Utf16Length("\U{1F600}\U{1F600}\U{1F600}") == 6;
  }
}
