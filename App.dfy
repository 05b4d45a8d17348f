/**
 * The application shell: the logged-in user, the lesson being played, and
 * the two completion handlers that update progress and save it through the
 * progress store. The login form's input rule is part of `Login`.
 */
module App {
  import opened Strings
  import opened Types
  import opened Progress
  import opened Auth
  import opened Constants

  class App {
    /** The logged-in user (`null` shows the login screen). */
    var user: Option<User>
    /** The lesson handed to the lesson flow, if any. */
    var activeLesson: Option<Lesson>
    /** Browser storage, shared with the store helpers. */
    const store: AuthStore

    /** The in-memory user is the one in the session slot. */
    ghost predicate Valid()
      reads this, store
    {
      store.Valid() && (user.Some? ==> store.session == user)
    }

    /** Start-up: a stored session is resumed, otherwise nobody is logged in. */
    constructor (store: AuthStore)
      requires store.Valid()
      ensures Valid()
      ensures this.store == store && user == store.session && activeLesson == None
    {
      this.store := store;
      user := store.session;
      activeLesson := None;
    }

    /**
     * Submitting the login form: the name is trimmed; a blank name is
     * ignored, any other logs in (creating the user when new).
     */
    method Login(name: string) returns (accepted: bool)
      requires Valid()
      modifies this, store
      ensures Valid()
      ensures accepted == (Trim(name) != [])
      ensures !accepted ==> user == old(user) && store.db == old(store.db) && store.session == old(store.session)
      ensures accepted ==> user.Some? && user.value.username == Trim(name) && store.session == user
      ensures accepted ==> Trim(name) in store.db && store.db[Trim(name)] == user.value.progress
      ensures accepted && Trim(name) in old(store.db) ==>
        store.db == old(store.db) && user.value.progress == old(store.db)[Trim(name)]
      ensures accepted && Trim(name) !in old(store.db) ==>
        store.db == old(store.db)[Trim(name) := InitialUserProgress] && user.value.progress == InitialUserProgress
      ensures activeLesson == old(activeLesson)
    {
      var username := Trim(name);
      if username == [] {
        return false;
      }
      var u := store.LoginUser(username);
      user := Some(u);
      accepted := true;
    }

    /** Logging out closes the session; stored progress stays. */
    method Logout()
      requires Valid()
      modifies this, store
      ensures Valid()
      ensures user == None && store.session == None && store.db == old(store.db)
      ensures activeLesson == old(activeLesson)
    {
      store.LogoutUser();
      user := None;
    }

    method SelectLesson(lesson: Lesson)
      requires Valid()
      modifies this
      ensures Valid()
      ensures activeLesson == Some(lesson) && user == old(user)
    {
      activeLesson := Some(lesson);
    }

    /**
     * `handleLessonComplete`: with no lesson or no user nothing happens.
     * A first completion of the lesson id updates the progress and saves it;
     * a repeated one neither changes nor saves anything.
     */
    method HandleLessonComplete()
      requires Valid()
      modifies this, store
      ensures Valid()
      ensures activeLesson == old(activeLesson)
      ensures old(activeLesson).None? || old(user).None? ==>
                user == old(user) && store.db == old(store.db) && store.session == old(store.session)
      ensures old(activeLesson).Some? && old(user).Some? ==>
                var u, id := old(user).value, old(activeLesson).value.id;
                && user == Some(User(u.username, CompleteLesson(u.progress, id)))
                && (id in u.progress.completedLessons ==> store.db == old(store.db) && store.session == old(store.session))
                && (id !in u.progress.completedLessons ==> store.db == old(store.db)[u.username := user.value.progress])
    {
      if activeLesson.None? || user.None? {
        return;
      }
      var u := user.value;
      var id := activeLesson.value.id;
      if id !in u.progress.completedLessons {
        var newProgress := CompleteLesson(u.progress, id);
        store.SaveUserProgress(u.username, newProgress);
        user := Some(User(u.username, newProgress));
      }
    }

    /**
     * `handleAssessmentComplete`: with no user nothing happens; otherwise
     * the result is recorded (appended, and on a pass tiers unlocked and XP
     * granted) and the progress is saved.
     */
    method HandleAssessmentComplete(result: TierAssessmentResult)
      requires Valid()
      modifies this, store
      ensures Valid()
      ensures activeLesson == old(activeLesson)
      ensures old(user).None? ==> user == None && store.db == old(store.db) && store.session == old(store.session)
      ensures old(user).Some? ==>
                var u := old(user).value;
                && user == Some(User(u.username, RecordAssessment(u.progress, result)))
                && store.db == old(store.db)[u.username := user.value.progress]
    {
      if user.None? {
        return;
      }
      var u := user.value;
      var newProgress := RecordAssessment(u.progress, result);
      store.SaveUserProgress(u.username, newProgress);
      user := Some(User(u.username, newProgress));
    }
  }
}
