/** The sign-in modal: three views (login, signup, forgot), a five-field
    form record, and a submit that completes after a simulated delay. The
    completion uses the view and record captured when the form was
    submitted. Timer firings are explicit steps. */
module AuthModal {
  import opened Wrappers
  import opened Profile

  datatype View = Login | Signup | Forgot

  const RecoveryMessage := "Recovery email sent! Check your inbox."

  /** The footer link: from login to signup, from any other view to login. */
  function FooterTarget(v: View): (w: View)
    ensures v == Login <==> w == Signup
    ensures w != Forgot
  {
    if v == Login then Signup else Login
  }

  /** The password input is shown in every view but forgot. */
  predicate ShowsPassword(v: View) { v != Forgot }

  /** The first name, last name and age inputs appear only on signup. */
  predicate ShowsNameAndAge(v: View) { v == Signup }

  /** Every input the view shows carries `required`, so the browser lets
      the form submit only when each shown field is non-empty: the email
      always, the password outside forgot, and the names and age on
      signup. */
  predicate RequiredFilled(v: View, data: FormData) {
    data.email != "" &&
    (ShowsPassword(v) ==> data.password != "") &&
    (ShowsNameAndAge(v) ==> data.firstName != "" && data.lastName != "" && data.age != "")
  }

  /** The "Forgot Password?" link appears only on login. */
  predicate ShowsForgotLink(v: View) { v == Login }

  /** What a submit's completion does with the captured view and record:
      in forgot it never logs in; otherwise it logs in with the record
      captured at submit time and closes. */
  datatype Outcome = ShowRecovery | LogInAndClose(data: FormData)

  function Complete(v: View, data: FormData): (o: Outcome)
    ensures o.ShowRecovery? <==> v == Forgot
    ensures o.LogInAndClose? ==> o.data == data
  {
    if v == Forgot then ShowRecovery else LogInAndClose(data)
  }

  class AuthModal {
    var view: View
    var isLoading: bool
    var successMsg: string
    var formData: FormData
    /** Submissions whose timer has not fired, with the captured view and
        record, oldest first. */
    var pendingSubmits: seq<(View, FormData)>
    /** Recovery-message timers that have not fired. */
    var pendingClears: nat

    /** At most one submission is outstanding, loading exactly while it
        is, and it captured a form the browser let through. */
    predicate Valid()
      reads this
    {
      |pendingSubmits| <= 1 && (isLoading <==> |pendingSubmits| == 1) &&
      forall k :: 0 <= k < |pendingSubmits| ==> RequiredFilled(pendingSubmits[k].0, pendingSubmits[k].1)
    }

    constructor ()
      ensures view == Login && !isLoading && successMsg == "" && formData == EmptyForm
      ensures pendingSubmits == [] && pendingClears == 0
      ensures Valid()
    {
      view := Login;
      isLoading := false;
      successMsg := "";
      formData := EmptyForm;
      pendingSubmits := [];
      pendingClears := 0;
    }

    /** `handleInputChange`. */
    method InputChange(f: Field, value: string)
      modifies this
      ensures formData == SetField(old(formData), f, value)
      ensures view == old(view) && isLoading == old(isLoading) && successMsg == old(successMsg)
      ensures pendingSubmits == old(pendingSubmits) && pendingClears == old(pendingClears)
    {
      formData := SetField(formData, f, value);
    }

    /** The submit button is disabled while loading, and the form is hidden
        while the recovery message shows. The browser runs `handleSubmit`
        only when every shown required field is filled (`submitted`);
        otherwise nothing changes. */
    method Submit() returns (submitted: bool)
      requires !isLoading && successMsg == ""
      modifies this
      ensures submitted <==> RequiredFilled(old(view), old(formData))
      ensures submitted ==> isLoading && pendingSubmits == old(pendingSubmits) + [(old(view), old(formData))]
      ensures !submitted ==> !isLoading && pendingSubmits == old(pendingSubmits)
      ensures view == old(view) && formData == old(formData) && successMsg == old(successMsg)
      ensures pendingClears == old(pendingClears)
      ensures old(Valid()) ==> Valid()
    {
      submitted := RequiredFilled(view, formData);
      if submitted {
        isLoading := true;
        pendingSubmits := pendingSubmits + [(view, formData)];
      }
    }

    /** The submit timer fires. `login` is the `onLogin` call made (None
        when there is none) and `close` whether `onClose` is called. */
    method SubmitCompletes() returns (login: Option<FormData>, close: bool)
      requires |pendingSubmits| > 0
      modifies this
      ensures !isLoading && pendingSubmits == old(pendingSubmits)[1..]
      ensures Complete(old(pendingSubmits)[0].0, old(pendingSubmits)[0].1) == ShowRecovery ==>
                login.None? && !close && successMsg == RecoveryMessage &&
                pendingClears == old(pendingClears) + 1
      ensures Complete(old(pendingSubmits)[0].0, old(pendingSubmits)[0].1).LogInAndClose? ==>
                login == Some(old(pendingSubmits)[0].1) && close &&
                successMsg == old(successMsg) && pendingClears == old(pendingClears)
      ensures view == old(view) && formData == old(formData)
      ensures old(Valid()) ==> Valid()
      ensures old(Valid()) && login.Some? ==> login.value.email != "" && login.value.password != ""
      ensures old(Valid()) && login.Some? && old(pendingSubmits)[0].0 == Signup ==>
                login.value.firstName != "" && login.value.lastName != "" && login.value.age != ""
    {
      var (v, data) := pendingSubmits[0];
      pendingSubmits := pendingSubmits[1..];
      isLoading := false;
      match Complete(v, data)
      case ShowRecovery =>
        successMsg := RecoveryMessage;
        pendingClears := pendingClears + 1;
        login, close := None, false;
      case LogInAndClose(d) =>
        login, close := Some(d), true;
    }

    /** The recovery-message timer fires: the message goes and the view
        returns to login. */
    method ClearFires()
      requires pendingClears > 0
      modifies this
      ensures successMsg == "" && view == Login && pendingClears == old(pendingClears) - 1
      ensures isLoading == old(isLoading) && formData == old(formData) && pendingSubmits == old(pendingSubmits)
    {
      successMsg := "";
      view := Login;
      pendingClears := pendingClears - 1;
    }

    /** "Forgot Password?", shown only on login. */
    method ChooseForgot()
      requires ShowsForgotLink(view) && successMsg == ""
      modifies this`view
      ensures view == Forgot
    {
      view := Forgot;
    }

    method FollowFooterLink()
      modifies this`view
      ensures view == FooterTarget(old(view))
    {
      view := FooterTarget(view);
    }

    function SubmitDisabled(): bool
      reads this
    {
      isLoading
    }
  }
}
