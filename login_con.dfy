/** The consumer sign-in / sign-up form. */
module ConsumerLogin {
  import opened Common

  const GenericError: string := "An error occurred. Please try again."

  /** The header's vertical offset for the selected option (1 sign in,
      2 sign up, 3 forgot password); any other option leaves it at 0. */
  function HeaderOffset(option: int): (r: int)
    ensures option == 2 ==> r == -29
    ensures option == 3 ==> r == -65
    ensures option != 2 && option != 3 ==> r == 0
  {
    var target := if option == 2 then -29 else 0;
    if option == 3 then -65 else target
  }

  datatype Action = SignIn | SignUp

  /** The submit button runs sign-in only for option 1; both sign-up and
      forgot-password run sign-up. */
  function SubmitAction(option: int): (a: Action)
    ensures a == SignIn <==> option == 1
    ensures option == 3 ==> a == SignUp
  {
    if option == 1 then SignIn else SignUp
  }

  /** The sign-up request body `{username, password, user_type}`. */
  datatype SignUpPayload = SignUpPayload(username: string, password: string, userType: string)

  /** The sign-in request body `{username, password}`. */
  datatype SignInPayload = SignInPayload(username: string, password: string)

  /** The reply: fetching or decoding throws, or a status with the body's
      `message`, `error` and `unique_user_id`, each possibly missing. */
  datatype Reply =
    | Threw
    | Replied(status: int, message: Option<string>, error: Option<string>, uniqueUserId: Option<string>)

  datatype Navigation = ToHome | ToHomeWithId(uniqueId: Option<string>)

  /** What a reply does: the new `message`, a new `uniqueid` if set, the
      navigation and the alert. */
  datatype Effect = Effect(message: Option<string>, uniqueId: Option<Option<string>>, navigation: Option<Navigation>, alert: Option<Alert>)

  /** How `handleSignUp` treats the reply: success exactly on 201. */
  function SignUpEffect(reply: Reply): (e: Effect)
    ensures e.navigation.Some? <==> reply.Replied? && reply.status == 201
    ensures e.navigation.Some? ==> e.navigation.value == ToHome && e.message == reply.message
    ensures reply.Replied? && reply.status != 201 ==> e.message == reply.error && e.navigation.None?
    ensures reply.Threw? ==> e.message == Some(GenericError) && e.alert == Some(Alert("Error", GenericError))
    ensures e.uniqueId.None?
  {
    match reply
    case Threw => Effect(Some(GenericError), None, None, Some(Alert("Error", GenericError)))
    case Replied(status, message, error, _) =>
      if status == 201 then Effect(message, None, Some(ToHome), Some(Alert("Success", OrEmpty(message))))
      else Effect(error, None, None, Some(Alert("Error", OrEmpty(error))))
  }

  /** How `handleSignIn` treats the reply: success exactly on 200, which
      stores the user id and passes it on. */
  function SignInEffect(reply: Reply): (e: Effect)
    ensures e.navigation.Some? <==> reply.Replied? && reply.status == 200
    ensures e.uniqueId.Some? <==> reply.Replied? && reply.status == 200
    ensures reply.Replied? && reply.status == 200 ==>
      e.uniqueId == Some(reply.uniqueUserId) && e.navigation == Some(ToHomeWithId(reply.uniqueUserId)) &&
      e.message == reply.message && e.alert.None?
    ensures reply.Replied? && reply.status != 200 ==> e.message == reply.error
    ensures reply.Threw? ==> e.message == Some(GenericError) && e.alert == Some(Alert("Error", GenericError))
  {
    match reply
    case Threw => Effect(Some(GenericError), None, None, Some(Alert("Error", GenericError)))
    case Replied(status, message, error, uniqueUserId) =>
      if status == 200 then Effect(message, Some(uniqueUserId), Some(ToHomeWithId(uniqueUserId)), None)
      else Effect(error, None, None, Some(Alert("Error", OrEmpty(error))))
  }

  /** A missing text shows as an empty alert message. */
  function OrEmpty(s: Option<string>): string {
    if s.Some? then s.value else ""
  }

  /** The form's state. */
  class LoginForm {
    var username: string
    var password: string
    var repeatPassword: string
    var userType: string
    var option: int
    var message: Option<string>
    var uniqueId: Option<string>

    constructor ()
      ensures username == "" && password == "" && repeatPassword == ""
      ensures userType == "Consumer" && option == 1
      ensures message == Some("") && uniqueId == Some("")
    {
      username, password, repeatPassword := "", "", "";
      userType := "Consumer";
      option := 1;
      message := Some("");
      uniqueId := Some("");
    }

    /** `handleSignUp`: a password mismatch alerts and sends nothing;
        otherwise the payload is sent and the reply's effect applied. */
    method HandleSignUp(reply: Reply) returns (sent: Option<SignUpPayload>, navigation: Option<Navigation>, alert: Option<Alert>)
      modifies this
      ensures password != repeatPassword ==>
        sent.None? && navigation.None? && alert == Some(Alert("Error", "Passwords do not match")) &&
        message == old(message)
      ensures password == repeatPassword ==>
        sent == Some(SignUpPayload(username, password, userType)) &&
        message == SignUpEffect(reply).message && navigation == SignUpEffect(reply).navigation &&
        alert == SignUpEffect(reply).alert
      ensures uniqueId == old(uniqueId)
      ensures username == old(username) && password == old(password) && repeatPassword == old(repeatPassword)
      ensures userType == old(userType) && option == old(option)
    {
      if password != repeatPassword {
        sent, navigation, alert := None, None, Some(Alert("Error", "Passwords do not match"));
        return;
      }
      sent := Some(SignUpPayload(username, password, userType));
      var effect := SignUpEffect(reply);
      message := effect.message;
      navigation, alert := effect.navigation, effect.alert;
    }

    /** `handleSignIn`: the payload is always sent; the reply's effect is
        applied, storing the user id on success. */
    method HandleSignIn(reply: Reply) returns (sent: SignInPayload, navigation: Option<Navigation>, alert: Option<Alert>)
      modifies this
      ensures sent == SignInPayload(username, password)
      ensures message == SignInEffect(reply).message
      ensures uniqueId == if SignInEffect(reply).uniqueId.Some? then SignInEffect(reply).uniqueId.value else old(uniqueId)
      ensures navigation == SignInEffect(reply).navigation && alert == SignInEffect(reply).alert
      ensures username == old(username) && password == old(password) && repeatPassword == old(repeatPassword)
      ensures userType == old(userType) && option == old(option)
    {
      sent := SignInPayload(username, password);
      var effect := SignInEffect(reply);
      message := effect.message;
      if effect.uniqueId.Some? {
        uniqueId := effect.uniqueId.value;
      }
      navigation, alert := effect.navigation, effect.alert;
    }

    /** The submit button: sign-in for option 1, sign-up otherwise. */
    method Submit(reply: Reply) returns (action: Action, navigation: Option<Navigation>, alert: Option<Alert>)
      modifies this
      ensures action == SubmitAction(old(option))
      ensures action == SignIn ==>
        message == SignInEffect(reply).message && navigation == SignInEffect(reply).navigation &&
        alert == SignInEffect(reply).alert &&
        uniqueId == if SignInEffect(reply).uniqueId.Some? then SignInEffect(reply).uniqueId.value else old(uniqueId)
      ensures action == SignUp && old(password) == old(repeatPassword) ==>
        message == SignUpEffect(reply).message && navigation == SignUpEffect(reply).navigation &&
        alert == SignUpEffect(reply).alert
      ensures action == SignUp && old(password) != old(repeatPassword) ==>
        message == old(message) && navigation.None? && alert == Some(Alert("Error", "Passwords do not match"))
      ensures action == SignUp ==> uniqueId == old(uniqueId)
      ensures username == old(username) && password == old(password) && repeatPassword == old(repeatPassword)
      ensures userType == old(userType) && option == old(option)
    {
      action := SubmitAction(option);
      if action == SignIn {
        var _, n, a := HandleSignIn(reply);
        navigation, alert := n, a;
      } else {
        var _, n, a := HandleSignUp(reply);
        navigation, alert := n, a;
      }
    }
  }
}
