/** The application identifier value object (metadata/core/domain/app_id.py): a non-empty string
    every character of which is a lowercase letter. Digits, '_' and '-' are not lowercase letters,
    so they are refused. Only the ASCII letters 'a'..'z' count as lowercase here; the other Unicode
    lowercase letters that Python's `str.islower` also accepts are not modelled. */
module AppIdentity {
  import opened Common
  import Text

  datatype AppId = AppId(value: string)

  /** `all(c.islower() for c in value)`, one character at a time, with `islower` restricted to the
      ASCII letters 'a'..'z'. */
  function AllLower(s: string): bool
  {
    if s == [] then true else Text.IsAsciiLower(s[0]) && AllLower(s[1..])
  }

  lemma {:induction false} AllLowerMeansEveryCharacter(s: string)
    ensures AllLower(s) <==> forall i :: 0 <= i < |s| ==> Text.IsAsciiLower(s[i])
  {
    if s != [] {
      AllLowerMeansEveryCharacter(s[1..]);
      assert forall i :: 1 <= i < |s| ==> s[1..][i - 1] == s[i];
    }
  }

  predicate ValidAppId(value: string)
  {
    value != [] && forall i :: 0 <= i < |value| ==> Text.IsAsciiLower(value[i])
  }

  /** `AppId(value)`: the empty string is refused first, then a string with any character that is
      not a lowercase letter. */
  function NewAppId(value: string): (r: Result<AppId>)
    ensures r.Ok? <==> ValidAppId(value)
    ensures r.Ok? ==> r.value.value == value
    ensures value == [] ==> r == Err(EntityError(MissingAppId))
    ensures value != [] && r.Err? ==> r == Err(EntityError(AppIdNotLowercase))
  {
    AllLowerMeansEveryCharacter(value);
    if value == [] then Err(EntityError(MissingAppId))
    else if !AllLower(value) then Err(EntityError(AppIdNotLowercase))
    else Ok(AppId(value))
  }

  /** The identifiers the tests use are accepted; one with a digit, an underscore or an upper-case
      letter is refused. */
  lemma AppIdExamples()
    ensures NewAppId("newapp").Ok? && NewAppId("appone").Ok? && NewAppId("apptwo").Ok?
    ensures NewAppId("app1") == Err(EntityError(AppIdNotLowercase))
    ensures NewAppId("my_app") == Err(EntityError(AppIdNotLowercase))
    ensures NewAppId("App") == Err(EntityError(AppIdNotLowercase))
    ensures NewAppId("") == Err(EntityError(MissingAppId))
  {
    assert !Text.IsAsciiLower("app1"[3]);
    assert !Text.IsAsciiLower("my_app"[2]);
    assert !Text.IsAsciiLower("App"[0]);
  }
}
