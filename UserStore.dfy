/** The in-memory user store (service/user_store.go): users by username, no overwrite. */
module UserStore {
  import opened Base
  import opened UserRecord

  datatype UserStoreError = UserAlreadyExists

  /** InMemoryUserStore; its lock makes each operation atomic and is not modelled. */
  class InMemoryUserStore {
    var users: map<string, User>

    /** Every user is stored under its own username. */
    ghost predicate Valid()
      reads this
    {
      forall name :: name in users ==> users[name].username == name
    }

    constructor ()
      ensures Valid() && users == map[]
    {
      users := map[];
    }

    /** Save: rejects a username already present; otherwise stores a copy of the user under it.
        No saved record is ever replaced. */
    method Save(user: User) returns (err: Option<UserStoreError>)
      requires Valid()
      modifies this
      ensures Valid()
      ensures forall name :: name in old(users) ==> name in users && users[name] == old(users)[name]
      ensures user.username in old(users) ==> err == Some(UserAlreadyExists) && users == old(users)
      ensures user.username !in old(users) ==> err == None && users == old(users)[user.username := user]
    {
      if user.username in users {
        return Some(UserAlreadyExists);
      }
      users := users[user.username := user.Clone()];
      err := None;
    }

    /** Find: a copy of the user with that name, or none (Go's (nil, nil)); never an error. */
    method Find(username: string) returns (user: Option<User>, err: Option<UserStoreError>)
      ensures err == None
      ensures username in users ==> user == Some(users[username])
      ensures username !in users ==> user == None
    {
      if username in users {
        user := Some(users[username].Clone());
      } else {
        user := None;
      }
      err := None;
    }
  }

  /** Finding a user right after saving it under a new name gives the same record back. */
  method SaveThenFind(store: InMemoryUserStore, user: User) returns (found: Option<User>)
    requires store.Valid() && user.username !in store.users
    modifies store
    ensures found == Some(user)
  {
    var saveErr := store.Save(user);
    var findErr;
    found, findErr := store.Find(user.username);
  }
}
