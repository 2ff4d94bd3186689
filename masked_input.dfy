/** The password confirmation check of the masked-input survey: the
    confirmation must equal the password stored beside it. */
module MaskedInput {
  import opened Wrappers
  import opened Surveys

  const PASSWORDS_DIFFER := "Passwords do not match"

  /** Where the password sits for a confirmation field at `path`: the field
      `password` of the same parent. */
  function PasswordPath(path: ResponsePath): ResponsePath
  {
    Child(Parent(path), "password")
  }

  /** `passwords_match`: a string is accepted exactly when it equals the
      stored sibling password, a missing password counting as empty. */
  function PasswordsMatch(value: ResponseValue, responses: Responses, path: ResponsePath): (r: Verdict)
    ensures !value.String? ==> r == OK
    ensures value.String? ==> (r.Ok? <==> GetString(responses, PasswordPath(path)).UnwrapOr("") == value.str)
    ensures r.Err? ==> r.error == PASSWORDS_DIFFER
  {
    match value
    case String(confirm) =>
      var parentPath := Parent(path);
      var password := GetString(responses, Child(parentPath, "password")).UnwrapOr("");
      if password != confirm then Err(PASSWORDS_DIFFER) else OK
    case _ => OK
  }

  /** The sibling is found from the confirmation's own path, wherever the
      pair is nested: for `p.password_confirm` it is `p.password`. */
  lemma LooksBesideItself(p: ResponsePath, confirm: string, responses: Responses)
    ensures PasswordsMatch(String(confirm), responses, Child(p, "password_confirm")).Ok?
      <==> GetString(responses, Child(p, "password")).UnwrapOr("") == confirm
  {
    ParentOfChild(p, "password_confirm");
  }

  /** With no password stored, only an empty confirmation is accepted. */
  lemma MissingPasswordIsEmpty(responses: Responses, path: ResponsePath, confirm: string)
    requires PasswordPath(path) !in responses
    ensures PasswordsMatch(String(confirm), responses, path).Ok? <==> confirm == ""
  {
  }

  /** Only the sibling password is read: two response maps that agree on
      it give the same verdict. */
  lemma ReadsOnlySibling(value: ResponseValue, responses: Responses, other: Responses, path: ResponsePath)
    requires PasswordPath(path) in responses <==> PasswordPath(path) in other
    requires PasswordPath(path) in responses ==> responses[PasswordPath(path)] == other[PasswordPath(path)]
    ensures PasswordsMatch(value, responses, path) == PasswordsMatch(value, other, path)
  {
  }
}
