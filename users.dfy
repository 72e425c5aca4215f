/**
 * `User.validate_new_user`: the registration form check. The two database
 * lookups (`User.objects.filter(...).exists()`) are the sets of e-mail
 * addresses and usernames already taken.
 */
module Users {
  import opened Common

  const EmailRequired := "El email es requerido"
  const EmailTaken := "Ya existe un usuario con este email"
  const UsernameRequired := "El username es requerido"
  const UsernameTaken := "Ya existe un usuario con este nombre de usuario"
  const PasswordsRequired := "Las contraseñas son requeridas"
  const PasswordsDiffer := "Las contraseñas no coinciden"

  /**
   * Per-field errors for a registration. Each key is decided on its own;
   * within a key, the `None` case wins over the lookup or the comparison.
   */
  function ValidateNewUser(email: Option<string>, username: Option<string>,
                           password: Option<string>, passwordConfirm: Option<string>,
                           takenEmails: set<string>, takenUsernames: set<string>)
    : (errors: map<string, string>)
    ensures errors.Keys <= {"email", "username", "password"}
    ensures "email" in errors <==> email.None? || email.value in takenEmails
    ensures "email" in errors ==>
      errors["email"] == (if email.None? then EmailRequired else EmailTaken)
    ensures "username" in errors <==> username.None? || username.value in takenUsernames
    ensures "username" in errors ==>
      errors["username"] == (if username.None? then UsernameRequired else UsernameTaken)
    ensures "password" in errors <==> password.None? || passwordConfirm.None? || password != passwordConfirm
    ensures "password" in errors ==>
      errors["password"] == (if password.None? || passwordConfirm.None? then PasswordsRequired else PasswordsDiffer)
  {
    var e1: map<string, string> :=
      if email.None? then map["email" := EmailRequired]
      else if email.value in takenEmails then map["email" := EmailTaken]
      else map[];
    var e2 :=
      if username.None? then e1["username" := UsernameRequired]
      else if username.value in takenUsernames then e1["username" := UsernameTaken]
      else e1;
    if password.None? || passwordConfirm.None? then e2["password" := PasswordsRequired]
    else if password != passwordConfirm then e2["password" := PasswordsDiffer]
    else e2
  }

  /** A registration is accepted (no errors) exactly when every field is present, free and the passwords match. */
  lemma AcceptedIff(email: Option<string>, username: Option<string>,
                    password: Option<string>, passwordConfirm: Option<string>,
                    takenEmails: set<string>, takenUsernames: set<string>)
    ensures ValidateNewUser(email, username, password, passwordConfirm, takenEmails, takenUsernames) == map[]
        <==> && email.Some? && email.value !in takenEmails
             && username.Some? && username.value !in takenUsernames
             && password.Some? && password == passwordConfirm
  {
    var errors := ValidateNewUser(email, username, password, passwordConfirm, takenEmails, takenUsernames);
    if errors != map[] {
      var k :| k in errors;
    }
  }

  /**
   * The password check depends on neither lookup, the e-mail check does not
   * depend on the username lookup, and the username check does not depend
   * on the e-mail lookup.
   */
  lemma ErrorsAreIndependent(email: Option<string>, username: Option<string>,
                             password: Option<string>, passwordConfirm: Option<string>,
                             takenEmails: set<string>, takenUsernames: set<string>,
                             otherEmails: set<string>, otherUsernames: set<string>)
    ensures var a := ValidateNewUser(email, username, password, passwordConfirm, takenEmails, takenUsernames);
            var b := ValidateNewUser(email, username, password, passwordConfirm, otherEmails, otherUsernames);
            "password" in a <==> "password" in b
    ensures var a := ValidateNewUser(email, username, password, passwordConfirm, takenEmails, takenUsernames);
            var b := ValidateNewUser(email, username, password, passwordConfirm, takenEmails, otherUsernames);
            "email" in a <==> "email" in b
    ensures var a := ValidateNewUser(email, username, password, passwordConfirm, takenEmails, takenUsernames);
            var b := ValidateNewUser(email, username, password, passwordConfirm, otherEmails, takenUsernames);
            "username" in a <==> "username" in b
  {
  }
}
