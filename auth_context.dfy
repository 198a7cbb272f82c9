/**
 * The mock authentication context (src/contexts/AuthContext.tsx): a single
 * `user` field that `login`, `register` and `logout` set.
 */
module AuthContext {
  import opened Wrappers

  datatype User = User(id: string, name: string, email: string)

  const LoginError := "E-mail ou senha incorretos"

  /** The mock credential rule: any non-empty e-mail with a password of at least six characters. */
  predicate LoginAccepted(email: string, password: string) {
    email != [] && |password| >= 6
  }

  class AuthSession {
    var user: Option<User>

    constructor ()
      ensures user == None
    {
      user := None;
    }

    /** `isAuthenticated`. */
    function IsAuthenticated(): bool
      reads this
    {
      user.Some?
    }

    /** `login`: signs the demo user in, or throws (`failure`) and leaves the user as it was. */
    method Login(email: string, password: string) returns (failure: Option<string>)
      modifies this
      ensures failure.None? <==> LoginAccepted(email, password)
      ensures failure.None? ==> user == Some(User("1", "Usuário Demo", email)) && IsAuthenticated()
      ensures failure.Some? ==> failure.value == LoginError && user == old(user)
    {
      if email != [] && |password| >= 6 {
        user := Some(User("1", "Usuário Demo", email));
        failure := None;
      } else {
        failure := Some(LoginError);
      }
    }

    /** `register`: signs the given name and e-mail in, without any check. */
    method Register(name: string, email: string, password: string)
      modifies this
      ensures user == Some(User("1", name, email)) && IsAuthenticated()
    {
      user := Some(User("1", name, email));
    }

    /** `logout`. */
    method Logout()
      modifies this
      ensures user == None && !IsAuthenticated()
    {
      user := None;
    }
  }
}
