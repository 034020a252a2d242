/** Input validation of the dispatch facade (utils/validator.js). */
module Validator {
  import opened Common

  const MissingTo := "Recipient email address (to) is required"
  const MissingTemplate := "Email template is required"
  const MissingSource := "Email provider source is required"

  /** `validateEmailInput({to, template, source})`: checks `to`, `template`
      and `source` in that order and fails on the first falsy one. */
  function ValidateEmailInput(to: Option<string>, template: Option<string>, source: Option<string>): (r: Outcome)
    ensures r.Pass? <==> !Falsy(to) && !Falsy(template) && !Falsy(source)
    ensures Falsy(to) ==> r == Fail(MissingTo)
    ensures !Falsy(to) && Falsy(template) ==> r == Fail(MissingTemplate)
    ensures !Falsy(to) && !Falsy(template) && Falsy(source) ==> r == Fail(MissingSource)
  {
    if Falsy(to) then Fail(MissingTo)
    else if Falsy(template) then Fail(MissingTemplate)
    else if Falsy(source) then Fail(MissingSource)
    else Pass
  }

  /** An empty string is rejected exactly like an omitted field. */
  lemma EmptyCountsAsMissing(to: Option<string>, template: Option<string>, source: Option<string>)
    ensures ValidateEmailInput(Some(""), template, source) == ValidateEmailInput(None, template, source)
    ensures ValidateEmailInput(to, Some(""), source) == ValidateEmailInput(to, None, source)
    ensures ValidateEmailInput(to, template, Some("")) == ValidateEmailInput(to, template, None)
  {
  }
}
