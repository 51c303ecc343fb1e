/** The `/register` and `/login-user` handlers of the backend over the user
    collection, kept here as a map from username to password. Every reply is
    the JSON body `{status?, data}`; the handlers never use HTTP status codes. */
module UserBackend {
  import opened Common

  /** The `status` field of a reply, when present. */
  datatype Status = Ok | Error

  /** A reply body: an optional status and the `data` message. */
  datatype Response = Response(status: Option<Status>, data: string)

  const UserExists := "User already exists!!"
  const UserCreated := "User Created"
  const UserMissing := "User doesn't exists!!"
  const LoginSuccessful := "Login successful"
  const InvalidPassword := "Invalid password"

  /** What `/register` answers, given whether `User.create` failed and with
      which error. */
  function RegisterReply(users: map<string, string>, username: string, createError: Option<string>): (r: Response)
    ensures r.status == None <==> username in users
    ensures r.status == Some(Ok) <==> username !in users && createError.None?
    ensures r.status == Some(Error) ==> createError == Some(r.data)
  {
    if username in users then Response(None, UserExists)
    else match createError
      case None => Response(Some(Ok), UserCreated)
      case Some(e) => Response(Some(Error), e)
  }

  /** The user collection after `/register`: a new pair is stored only when
      the name is free and the insert succeeds. */
  function AfterRegister(users: map<string, string>, username: string, password: string,
                         createError: Option<string>): (m: map<string, string>)
    ensures m != users <==> username !in users && createError.None?
    ensures users.Keys <= m.Keys <= users.Keys + {username}
    ensures forall v :: v in users ==> m[v] == users[v]
    ensures username in m && username !in users ==> m[username] == password
  {
    if username !in users && createError.None? then users[username := password] else users
  }

  /** What `/login-user` answers for a user collection. */
  function LoginReply(users: map<string, string>, username: string, password: string): (r: Response)
    ensures r.status == None <==> username !in users
    ensures r.status == Some(Ok) <==> username in users && users[username] == password
  {
    if username !in users then Response(None, UserMissing)
    else if password == users[username] then Response(Some(Ok), LoginSuccessful)
    else Response(Some(Error), InvalidPassword)
  }

  /** An existing username is refused without a status and the store is unchanged. */
  lemma RegisterExisting(users: map<string, string>, username: string, password: string, createError: Option<string>)
    requires username in users
    ensures RegisterReply(users, username, createError) == Response(None, "User already exists!!")
    ensures AfterRegister(users, username, password, createError) == users
  {
  }

  /** A free username whose insert succeeds is stored with exactly its
      password, every other user is kept as it was, and the reply is `ok`. */
  lemma RegisterNew(users: map<string, string>, username: string, password: string)
    requires username !in users
    ensures RegisterReply(users, username, None) == Response(Some(Ok), "User Created")
    ensures var m := AfterRegister(users, username, password, None);
      m.Keys == users.Keys + {username} && m[username] == password &&
      forall v :: v in users ==> m[v] == users[v]
  {
  }

  /** A failed insert answers `error` with the store's error and stores nothing. */
  lemma RegisterInsertFails(users: map<string, string>, username: string, password: string, e: string)
    requires username !in users
    ensures RegisterReply(users, username, Some(e)) == Response(Some(Error), e)
    ensures AfterRegister(users, username, password, Some(e)) == users
  {
  }

  /** Login tells apart an unknown user (no status), a wrong password
      (`error`) and the right one (`ok`): `ok` exactly when the password
      equals the stored one. */
  lemma LoginCases(users: map<string, string>, username: string, password: string)
    ensures LoginReply(users, username, password).status == None <==> username !in users
    ensures username !in users ==> LoginReply(users, username, password) == Response(None, "User doesn't exists!!")
    ensures LoginReply(users, username, password).status == Some(Ok) <==>
      username in users && users[username] == password
    ensures username in users && users[username] != password ==>
      LoginReply(users, username, password) == Response(Some(Error), "Invalid password")
  {
  }

  /** Once registration succeeded, logging in with the same credentials is `ok`. */
  lemma RegisterThenLogin(users: map<string, string>, username: string, password: string)
    requires RegisterReply(users, username, None).status == Some(Ok)
    ensures LoginReply(AfterRegister(users, username, password, None), username, password)
      == Response(Some(Ok), "Login successful")
  {
  }

  /** Registering one user never changes how another user logs in. */
  lemma RegisterKeepsOtherLogins(users: map<string, string>, username: string, password: string,
                                 createError: Option<string>, other: string, attempt: string)
    requires other != username
    ensures LoginReply(AfterRegister(users, username, password, createError), other, attempt)
      == LoginReply(users, other, attempt)
  {
  }

  /** The user collection; the outcome of `User.create` is an input. */
  class UserStore {
    var users: map<string, string>

    constructor (users: map<string, string>)
      ensures this.users == users
    {
      this.users := users;
    }

    /** `POST /register`: look the name up, refuse it if taken, otherwise
        insert the pair; `createError` is the error the insert throws, if any. */
    method Register(username: string, password: string, createError: Option<string>) returns (r: Response)
      modifies this
      ensures r == RegisterReply(old(users), username, createError)
      ensures users == AfterRegister(old(users), username, password, createError)
    {
      if username in users {
        return Response(None, UserExists);
      }
      match createError
      case None =>
        users := users[username := password];
        r := Response(Some(Ok), UserCreated);
      case Some(e) =>
        r := Response(Some(Error), e);
    }

    /** `POST /login-user`: a read-only lookup and a plaintext comparison. */
    method Login(username: string, password: string) returns (r: Response)
      ensures r == LoginReply(users, username, password)
      ensures r.status == Some(Ok) <==> username in users && users[username] == password
      ensures r.status == None <==> username !in users
    {
      if username !in users {
        return Response(None, UserMissing);
      }
      if password == users[username] {
        r := Response(Some(Ok), LoginSuccessful);
      } else {
        r := Response(Some(Error), InvalidPassword);
      }
    }
  }
}
