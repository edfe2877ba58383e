/**
 * The prompt validators of the original command-line front end
 * (src/lib/validate.js): each accepts any non-empty answer.
 */
module LegacyValidate {
  import opened Validator

  const PageNameMessage := "Please enter a file name!"
  const BoilerplateMessage := "Please select a css framework!"
  const ProjectNameMessage := "Please enter the project name!"

  /** `if (val.length) return true; return message;` */
  function NonEmpty(val: string, message: string): (r: Verdict)
    requires message != ""
    ensures r == Accept <==> |val| > 0
    ensures r != Accept ==> r == Reject(message) && r.message != ""
  {
    if |val| > 0 then Accept else Reject(message)
  }

  function ValidatePageName(val: string): (r: Verdict)
    ensures r == Accept <==> val != ""
    ensures r != Accept ==> r.message == "Please enter a file name!"
  {
    NonEmpty(val, PageNameMessage)
  }

  function ValidateBoilerplate(val: string): (r: Verdict)
    ensures r == Accept <==> val != ""
    ensures r != Accept ==> r.message == "Please select a css framework!"
  {
    NonEmpty(val, BoilerplateMessage)
  }

  function ValidateProjectName(val: string): (r: Verdict)
    ensures r == Accept <==> val != ""
    ensures r != Accept ==> r.message == "Please enter the project name!"
  {
    NonEmpty(val, ProjectNameMessage)
  }

  /** The legacy rule is laxer than the current one: everything the current
      validator accepts it accepts, and it also takes names the current one
      refuses, such as "1abc" and "bad name". */
  lemma LegacyAcceptsMore(name: string)
    ensures Validator.ValidateProjectName(name) == Accept ==> ValidateProjectName(name) == Accept
    ensures ValidateProjectName("1abc") == Accept && Validator.ValidateProjectName("1abc") != Accept
    ensures ValidateProjectName("bad name") == Accept && Validator.ValidateProjectName("bad name") != Accept
  {
    assert !IsAsciiLetter("1abc"[0]);
    assert !IsNameChar("bad name"[3]);
  }
}
