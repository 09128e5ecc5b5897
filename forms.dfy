/**
 * What the admin screens' user forms share: the per-field error messages
 * and the two password rules (the create form's and the reset dialog's).
 */
module Forms {
  import opened Wrappers
  import opened Text

  /** The `errors` object: field name to message. */
  type Errors = map<string, string>

  const NAME_REQUIRED := "Name is required"
  const PHONE_REQUIRED := "Phone is required"
  const USERNAME_REQUIRED := "Username is required"
  const PASSWORD_REQUIRED := "Password is required"
  const PASSWORD_TOO_SHORT := "Password must be at least 6 characters"
  const NEW_PASSWORD_REQUIRED := "New password is required"
  const USERNAME_EXISTS := "Username already exists. Please choose another."

  /**
   * The create forms' password error: required when blank after trimming,
   * else at least six UTF-16 code units (JavaScript's `length`).
   */
  function CreatePasswordError(password: string): (e: Option<string>)
    ensures IsBlank(password) ==> e == Some(PASSWORD_REQUIRED)
    ensures !IsBlank(password) && Utf16Length(password) < 6 ==> e == Some(PASSWORD_TOO_SHORT)
    ensures e.None? <==> !IsBlank(password) && Utf16Length(password) >= 6
  {
    if IsBlank(password) then Some(PASSWORD_REQUIRED)
    else if Utf16Length(password) < 6 then Some(PASSWORD_TOO_SHORT)
    else None
  }

  /** The reset dialogs' check: required when empty, else at least six UTF-16 code units; no trimming. */
  function ResetPasswordError(password: string): (e: Option<string>)
    ensures password == "" ==> e == Some(NEW_PASSWORD_REQUIRED)
    ensures password != "" && Utf16Length(password) < 6 ==> e == Some(PASSWORD_TOO_SHORT)
    ensures e.None? <==> Utf16Length(password) >= 6
  {
    if password == "" then Some(NEW_PASSWORD_REQUIRED)
    else if Utf16Length(password) < 6 then Some(PASSWORD_TOO_SHORT)
    else None
  }

  /** A password the create form accepts is one the reset dialog accepts, but not the other way round. */
  lemma CreateRuleStricterThanReset(password: string)
    ensures CreatePasswordError(password).None? ==> ResetPasswordError(password).None?
    ensures ResetPasswordError("      ").None? && CreatePasswordError("      ") == Some(PASSWORD_REQUIRED)
  {
  }

  /** Three characters above U+FFFF are six code units: both forms accept them as a password. */
  lemma ThreeAstralCharactersAccepted()
    ensures forall c: char :: c as int > 0xFFFF ==> CreatePasswordError([c, c, c]).None? && ResetPasswordError([c, c, c]).None?
  {
    forall c: char | c as int > 0xFFFF
      ensures CreatePasswordError([c, c, c]).None? && ResetPasswordError([c, c, c]).None?
    {
      assert [c, c, c][..2] == [c, c] && [c, c][..1] == [c] && [c][..0] == [];
      assert Utf16Length([c]) == 2 && Utf16Length([c, c]) == 4 && Utf16Length([c, c, c]) == 6;
      assert [c, c, c][0] == c && !IsSpace(c);
      assert !IsBlank([c, c, c]);
    }
  }
}
