/** The global error listener (src/components/FirebaseErrorListener.tsx):
    authentication errors become toasts with a readable message, except the
    one code that fails silently; a permission error is kept and re-thrown on
    the next render. */
module AuthErrors {
  import opened Common

  const InvalidCredential := "auth/invalid-credential"
  const EmailAlreadyInUse := "auth/email-already-in-use"
  const WeakPassword := "auth/weak-password"
  const InvalidEmail := "auth/invalid-email"
  /** The code that never produces a toast. */
  const OperationNotAllowed := "auth/operation-not-allowed"

  const InternalErrorMessage := "An internal authentication error occurred. Please try again later."
  const GenericMessage := "An authentication error occurred. Please try again."

  /** `getAuthErrorMessage`. */
  function AuthErrorMessage(code: string): (msg: string)
    ensures code == InvalidCredential ==> msg == "Invalid credentials. Please check your email and password."
    ensures code == EmailAlreadyInUse ==> msg == "This email is already in use by another account."
    ensures code == WeakPassword ==> msg == "The password is too weak. Please use at least 6 characters."
    ensures code == InvalidEmail ==> msg == "The email address is not valid."
    ensures code == OperationNotAllowed ==> msg == InternalErrorMessage
    ensures code !in {InvalidCredential, EmailAlreadyInUse, WeakPassword, InvalidEmail, OperationNotAllowed} ==>
              msg == GenericMessage
  {
    if code == InvalidCredential then "Invalid credentials. Please check your email and password."
    else if code == EmailAlreadyInUse then "This email is already in use by another account."
    else if code == WeakPassword then "The password is too weak. Please use at least 6 characters."
    else if code == InvalidEmail then "The email address is not valid."
    else if code == OperationNotAllowed then InternalErrorMessage
    else GenericMessage
  }

  /** Only the silent code maps to the internal-error message. */
  lemma InternalMessageOnlyForSilentCode(code: string)
    ensures AuthErrorMessage(code) == InternalErrorMessage <==> code == OperationNotAllowed
  {
  }

  datatype ToastVariant = Default | Destructive

  datatype AuthToast = AuthToast(variant: ToastVariant, title: string, description: string)

  /** The toast `handleAuthError` shows for a code, if any. */
  function ToastFor(code: string): (t: Option<AuthToast>)
    ensures t.None? <==> code == OperationNotAllowed
    ensures t.Some? ==> t.value.variant == Destructive && t.value.title == "Authentication Failed"
                        && t.value.description == AuthErrorMessage(code)
                        && t.value.description != InternalErrorMessage
  {
    InternalMessageOnlyForSilentCode(code);
    if code == OperationNotAllowed then None
    else Some(AuthToast(Destructive, "Authentication Failed", AuthErrorMessage(code)))
  }

  /** A Firestore permission error, identified by the request it refused. */
  datatype PermissionError = PermissionError(path: string, operation: string)

  datatype RenderOutcome = RendersNothing | Throws(error: PermissionError)

  class ErrorListener {
    var toasts: seq<AuthToast>
    var permissionError: Option<PermissionError>

    /** No toast ever shown carries the internal-error message. */
    ghost predicate Valid()
      reads this
    {
      forall i :: 0 <= i < |toasts| ==> toasts[i].description != InternalErrorMessage
    }

    constructor ()
      ensures Valid() && toasts == [] && permissionError == None
    {
      toasts, permissionError := [], None;
    }

    /** `handleAuthError`: the silent code adds nothing, every other code
        adds exactly one destructive toast with its message. */
    method HandleAuthError(code: string)
      requires Valid()
      modifies this
      ensures Valid()
      ensures code == OperationNotAllowed ==> toasts == old(toasts)
      ensures code != OperationNotAllowed ==> toasts == old(toasts) + [ToastFor(code).value]
      ensures permissionError == old(permissionError)
    {
      var t := ToastFor(code);
      if code == OperationNotAllowed {
        return;
      }
      toasts := toasts + [t.value];
    }

    /** `handlePermissionError`. */
    method HandlePermissionError(error: PermissionError)
      modifies this
      ensures permissionError == Some(error) && toasts == old(toasts)
    {
      permissionError := Some(error);
    }

    /** The component's render: it throws the stored permission error. */
    method Render() returns (outcome: RenderOutcome)
      ensures permissionError.Some? ==> outcome == Throws(permissionError.value)
      ensures permissionError.None? ==> outcome == RendersNothing
    {
      outcome := if permissionError.Some? then Throws(permissionError.value) else RendersNothing;
    }
  }
}
