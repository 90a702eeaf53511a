/** The forgot-password page: its one-field schema, the submission that records the address
    the code was sent to, and the two buttons of the confirmation screen. The store action's
    settled result is an input; the library's e-mail test is the parameter `isEmail`. */
module ForgotPassword {
  import opened Wrappers
  import opened Text
  import opened AuthSchemas
  import AuthStore

  // ---------------------------------------------------------------------------------------
  // The schema

  /** `forgotPasswordSchema.safeParse({email})`: `.min(1)` and `.email()` see the text as
      typed; the value that comes out is lower-cased and then trimmed. */
  function ForgotSchema(isEmail: string -> bool, email: string): (r: Parsed<string>)
    ensures r.Success? <==> |email| >= 1 && isEmail(email)
    ensures r.Failure? ==> r.issues != [] && forall i :: 0 <= i < |r.issues| ==> r.issues[i].path == "email"
    ensures r.Success? ==> r.value == Trim(ToLower(email))
  {
    var issues := EmailIssues(isEmail, email);
    if issues == [] then Success(Trim(ToLower(email))) else Failure(issues)
  }

  /** Lower-casing never turns white space into something else, nor the reverse. */
  lemma LowerCharKeepsSpace(c: char)
    ensures IsSpace(LowerChar(c)) <==> IsSpace(c)
  {
  }

  /** A lower-cased character stays as it is when lower-cased again. */
  lemma LowerCharIdempotent(c: char)
    ensures LowerChar(LowerChar(c)) == LowerChar(c)
  {
  }

  /** The address the schema yields is in normal form: lower-casing or trimming it again
      changes nothing, so submitting it a second time sends the same address. */
  lemma {:induction false} ParsedEmailNormal(isEmail: string -> bool, email: string)
    requires ForgotSchema(isEmail, email).Success?
    ensures var e := ForgotSchema(isEmail, email).value;
      ToLower(e) == e && Trim(e) == e
  {
    var e := ForgotSchema(isEmail, email).value;
    assert e == Trim(ToLower(email));
    LoweredInfixIsLower(email, e);
    TrimUnpadded(e);
  }

  /** A piece of a lower-cased text is unchanged when lower-cased again. */
  lemma LoweredInfixIsLower(email: string, e: string)
    requires exists k :: OccursAt(ToLower(email), e, k)
    ensures ToLower(e) == e
  {
    var lowered := ToLower(email);
    var k :| OccursAt(lowered, e, k);
    forall i | 0 <= i < |e|
      ensures LowerChar(e[i]) == e[i]
    {
      assert e[i] == lowered[k + i];
      LowerCharIdempotent(email[k + i]);
    }
  }

  /** When the e-mail test refuses surrounding white space, as any address pattern does, the
      trim at the end of the schema never removes anything: the address sent is the typed
      one lower-cased. */
  lemma {:induction false} TrimRemovesNothing(isEmail: string -> bool, email: string)
    requires forall s :: isEmail(s) ==> Unpadded(s)
    requires ForgotSchema(isEmail, email).Success?
    ensures ForgotSchema(isEmail, email).value == ToLower(email)
  {
    var lowered := ToLower(email);
    assert Unpadded(email);
    LowerCharKeepsSpace(email[0]);
    LowerCharKeepsSpace(email[|email| - 1]);
    TrimUnpadded(lowered);
  }

  // ---------------------------------------------------------------------------------------
  // The page

  const ResetPasswordPath := "/reset-password"
  const ConnectionToast := "Error de conexión. Inténtalo de nuevo."

  /** How the store action settled: its result, or an exception. */
  datatype ForgotReply = Replied(result: AuthStore.ActionResult) | Threw

  /** A toast notification. */
  datatype Toast = SuccessToast(message: string) | ErrorToast(message: string)

  /** The toast a submission shows: the result's message, green or red after its `success`,
      or the connection message after an exception. */
  function ReplyToast(reply: ForgotReply): (t: Toast)
    ensures t.SuccessToast? <==> reply.Replied? && reply.result.success
    ensures reply.Replied? ==> t.message == reply.result.message
    ensures reply.Threw? ==> t == ErrorToast(ConnectionToast)
  {
    match reply
    case Replied(result) => if result.success then SuccessToast(result.message) else ErrorToast(result.message)
    case Threw => ErrorToast(ConnectionToast)
  }

  class ForgotPasswordPage {
    /** Whether the confirmation screen is shown. */
    var isSubmitted: bool
    /** The address the last successful request was made for. */
    var submittedEmail: string

    constructor()
      ensures !isSubmitted && submittedEmail == ""
    {
      isSubmitted := false;
      submittedEmail := "";
    }

    /** A submission of the typed address. The form calls `onSubmit` only with what the schema
        accepts; then a successful result records the parsed address and shows the
        confirmation screen, while a refusal or an exception leaves the page as it was. */
    method Submit(isEmail: string -> bool, email: string, reply: ForgotReply) returns (parsed: Parsed<string>, toast: Option<Toast>)
      modifies this
      ensures parsed == ForgotSchema(isEmail, email)
      ensures parsed.Failure? ==> toast.None?
      ensures parsed.Success? ==> toast == Some(ReplyToast(reply))
      ensures parsed.Success? && reply.Replied? && reply.result.success ==>
        isSubmitted && submittedEmail == parsed.value
      ensures !(parsed.Success? && reply.Replied? && reply.result.success) ==>
        isSubmitted == old(isSubmitted) && submittedEmail == old(submittedEmail)
    {
      parsed := ForgotSchema(isEmail, email);
      if parsed.Failure? {
        toast := None;
        return;
      }
      match reply {
        case Replied(result) =>
          if result.success {
            submittedEmail := parsed.value;
            isSubmitted := true;
          }
        case Threw =>
      }
      toast := Some(ReplyToast(reply));
    }

    /** "Enviar a otro email": back to the form; the recorded address stays. */
    method SendToAnotherEmail()
      modifies this
      ensures !isSubmitted && submittedEmail == old(submittedEmail)
    {
      isSubmitted := false;
    }

    /** "Ya tengo el código": the reset page, with the recorded address as its `email`
        query parameter; the reset page reads back exactly that address. */
    function ResetLink(): (link: string)
      reads this
      ensures |link| >= |ResetPasswordPath + "?email="|
      ensures link[..|ResetPasswordPath + "?email="|] == ResetPasswordPath + "?email="
      ensures var value := link[|ResetPasswordPath + "?email="|..];
        forall i :: 0 <= i < |value| ==> IsUriUnreserved(value[i]) || value[i] == '%'
      ensures DecodeURIComponent(link[|ResetPasswordPath + "?email="|..]) == Some(submittedEmail)
    {
      var prefix := ResetPasswordPath + "?email=";
      var value := EncodeURIComponent(submittedEmail);
      assert (prefix + value)[|prefix|..] == value;
      DecodeEncode(submittedEmail);
      prefix + value
    }
  }

  /** The query value of the reset link carries no character that would end it or start
      another parameter, whatever address was recorded. */
  lemma ResetLinkIsOneParameter(page: ForgotPasswordPage)
    ensures var link := page.ResetLink(); var value := link[|ResetPasswordPath + "?email="|..];
      forall i :: 0 <= i < |value| ==> value[i] !in "&#=+ "
  {
    var link := page.ResetLink();
    var value := link[|ResetPasswordPath + "?email="|..];
    forall i | 0 <= i < |value|
      ensures value[i] !in "&#=+ "
    {
      NotADelimiter(value[i]);
    }
  }

  /** Neither an unreserved character nor `%` ends a query value or starts another one. */
  lemma NotADelimiter(c: char)
    requires IsUriUnreserved(c) || c == '%'
    ensures c !in "&#=+ "
  {
  }

  /** An address made only of unreserved characters goes into the link as it is. */
  lemma PlainAddressInLink(page: ForgotPasswordPage)
    requires forall i :: 0 <= i < |page.submittedEmail| ==> IsUriUnreserved(page.submittedEmail[i])
    ensures page.ResetLink() == ResetPasswordPath + "?email=" + page.submittedEmail
  {
  }
}
