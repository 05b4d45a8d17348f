/**
 * The progress store: browser storage holding a dictionary from username
 * to progress and a session slot with the current user. The two storage
 * keys are the two fields of `AuthStore`; JSON encoding is not modelled.
 */
module Auth {
  import opened Strings
  import opened Types
  import opened Constants

  class AuthStore {
    /** The user database, keyed by the exact username. */
    var db: map<string, UserProgress>
    /** The session slot: the logged-in user, if any. */
    var session: Option<User>

    /** The session always mirrors the stored progress of its user. */
    ghost predicate Valid()
      reads this
    {
      session.Some? ==> session.value.username in db && db[session.value.username] == session.value.progress
    }

    /** Storage as left by earlier visits: any database and a consistent session. */
    constructor (db: map<string, UserProgress>, session: Option<User>)
      requires session.Some? ==> session.value.username in db && db[session.value.username] == session.value.progress
      ensures Valid()
      ensures this.db == db && this.session == session
    {
      this.db := db;
      this.session := session;
    }

    /**
     * `loginUser`: loads the stored progress of `username`, creating it from
     * the initial record when absent, and opens a session for that user.
     */
    method LoginUser(username: string) returns (user: User)
      requires Valid()
      modifies this
      ensures Valid()
      ensures user.username == username
      ensures username in old(db) ==> db == old(db) && user.progress == old(db)[username]
      ensures username !in old(db) ==> db == old(db)[username := InitialUserProgress] && user.progress == InitialUserProgress
      ensures session == Some(user)
    {
      var progress;
      if username in db {
        progress := db[username];
      } else {
        progress := InitialUserProgress;
        db := db[username := progress];
      }
      user := User(username, progress);
      session := Some(user);
    }

    /** `logoutUser`: closes the session; the database is untouched. */
    method LogoutUser()
      requires Valid()
      modifies this
      ensures Valid()
      ensures session == None && db == old(db)
    {
      session := None;
    }

    /** `getCurrentUser`: the session's user, or none. */
    method GetCurrentUser() returns (user: Option<User>)
      requires Valid()
      ensures user == session
      ensures user.Some? ==> user.value.username in db && db[user.value.username] == user.value.progress
    {
      user := session;
    }

    /**
     * `saveUserProgress`: overwrites the entry of `username` only, and
     * points the session at that user with the new progress.
     */
    method SaveUserProgress(username: string, progress: UserProgress)
      requires Valid()
      modifies this
      ensures Valid()
      ensures db == old(db)[username := progress]
      ensures forall k :: k != username ==> (k in db <==> k in old(db)) && (k in db ==> db[k] == old(db)[k])
      ensures session == Some(User(username, progress))
    {
      db := db[username := progress];
      session := Some(User(username, progress));
    }
  }
}
