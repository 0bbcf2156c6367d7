/** frontend/src/context/AuthContext.tsx: the signed-in user, held in React state
    and mirrored into the browser's localStorage slot "snapmyfit-user".  Login and
    registration are mocks that build a user with fixed starting values. */
module Auth {
  import opened Wrappers
  import opened Text

  /** frontend/src/types/index.ts, `User`. */
  datatype User = User(
    id: string,
    name: string,
    email: string,
    points: int,
    level: int,
    searchesRemaining: int,
    contributionsCount: int,
    avatar: Option<string>,
    joinedDate: string)

  /** `email.split('@')[0]` */
  function EmailName(email: string): string
  {
    BeforeFirst(email, '@')
  }

  /** The name `login` derives is the part of the email before its first '@'
      (all of it when there is none): appending the rest gives the email back. */
  lemma EmailNameSpec(email: string)
    ensures '@' !in EmailName(email)
    ensures '@' !in email ==> EmailName(email) == email
    ensures '@' in email ==> email == EmailName(email) + "@" + email[|EmailName(email)| + 1..]
  {
  }

  /** The user the mock `login` signs in. */
  function LoginUser(email: string): User
  {
    User("1", EmailName(email), email, 150, 2, 8, 3, None, "2024-01-15")
  }

  /** The user the mock `register` creates; `now` is `new Date().toISOString()`. */
  function RegisteredUser(name: string, email: string, now: string): User
  {
    User("1", name, email, 50, 1, 5, 0, None, BeforeFirst(now, 'T'))
  }

  /** The state `AuthProvider` keeps: `user` is the React state, `stored` the user
      saved under "snapmyfit-user" (None when the slot is empty). */
  class AuthProvider {
    var user: Option<User>
    var stored: Option<User>

    /** The stored session equals the in-memory user. */
    predicate Mirrored()
      reads this
    {
      stored == user
    }

    /** Mounting: `user` starts as null, whatever the storage holds. */
    constructor (saved: Option<User>)
      ensures user == None && stored == saved
    {
      user := None;
      stored := saved;
    }

    /** The mount effect: a saved session, if any, becomes the current user. */
    method RestoreSession()
      modifies this`user
      ensures user == if stored.Some? then stored else old(user)
      ensures old(user).None? ==> Mirrored()
    {
      if stored.Some? {
        user := stored;
      }
    }

    /** `login(email, password)`; the password is not looked at. */
    method Login(email: string, password: string)
      modifies this
      ensures user == Some(LoginUser(email))
      ensures user.value.name == EmailName(email) && user.value.email == email
      ensures Mirrored()
    {
      var mockUser := User("1", EmailName(email), email, 150, 2, 8, 3, None, "2024-01-15");
      user := Some(mockUser);
      stored := Some(mockUser);
    }

    /** `register(name, email, password)`; the password is not looked at. */
    method Register(name: string, email: string, password: string, now: string)
      modifies this
      ensures user == Some(RegisteredUser(name, email, now))
      ensures user.value.name == name && user.value.email == email
      ensures Mirrored()
    {
      var mockUser := User("1", name, email, 50, 1, 5, 0, None, BeforeFirst(now, 'T'));
      user := Some(mockUser);
      stored := Some(mockUser);
    }

    /** `logout()`: no user, and the stored session is removed. */
    method Logout()
      modifies this
      ensures user == None && stored == None
      ensures Mirrored()
    {
      user := None;
      stored := None;
    }

    /** `updateUserPoints(points)`: without a user nothing happens; otherwise only
        the points change, by `points`, and the updated user is stored. */
    method UpdateUserPoints(points: int)
      modifies this
      ensures old(user).None? ==> user == old(user) && stored == old(stored)
      ensures old(user).Some? ==> user == Some(old(user).value.(points := old(user).value.points + points))
      ensures old(user).Some? ==> Mirrored()
      ensures old(Mirrored()) ==> Mirrored()
    {
      if user.Some? {
        var updatedUser := user.value.(points := user.value.points + points);
        user := Some(updatedUser);
        stored := Some(updatedUser);
      }
    }
  }
}
