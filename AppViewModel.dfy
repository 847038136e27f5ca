/**
 * The session state of the application (src/ViewModels/AppViewModel.swift):
 * sign-in by email, which finds the user or creates it together with its
 * settings, sign-out, and profile updates.
 *
 * The stored session email (`UserDefaults`, key "currentUserEmail") is the
 * field `sessionEmail`. The simulated sign-in delay and the permission
 * requests after sign-in are not part of this model.
 */
module AppViewModel {
  import opened Basics
  import opened Models
  import opened Persistence

  const NoDatabase: string := "Datenbank nicht verfügbar"
  const SignInFailed: string := "Fehler beim Anmelden: "
  const SaveFailed: string := "Fehler beim Speichern: "

  class AppViewModel {
    var isAuthenticated: bool
    var currentUser: User?
    var isLoading: bool
    var errorMessage: Option<string>
    var modelContext: ModelContext?
    var sessionEmail: Option<string>

    /**
     * `init()`: starts signed out and checks the stored session. The store is
     * attached only after construction, so the lookup finds no user yet.
     */
    constructor (storedEmail: Option<string>)
      ensures sessionEmail == storedEmail && modelContext == null
      ensures !isAuthenticated && currentUser == null
      ensures !isLoading && errorMessage == None
    {
      isAuthenticated := false;
      currentUser := null;
      isLoading := false;
      errorMessage := None;
      modelContext := null;
      sessionEmail := storedEmail;
      new;
      CheckAuthenticationStatus();
    }

    /** `checkAuthenticationStatus`: loads the user of the stored session email, if any. */
    method CheckAuthenticationStatus()
      modifies this`currentUser, this`isAuthenticated
      ensures sessionEmail.None? ==> currentUser == old(currentUser) && isAuthenticated == old(isAuthenticated)
      ensures sessionEmail.Some? && modelContext != null
              && UsersWithEmail(modelContext.users, sessionEmail.value) != [] ==>
        currentUser == UsersWithEmail(modelContext.users, sessionEmail.value)[0] && isAuthenticated
      ensures (sessionEmail.Some? ==> modelContext == null || UsersWithEmail(modelContext.users, sessionEmail.value) == []) ==>
        currentUser == old(currentUser) && isAuthenticated == old(isAuthenticated)
    {
      if sessionEmail.Some? {
        LoadUser(sessionEmail.value);
      }
    }

    /**
     * `loadUser(email:)`: the first stored user with this email becomes the
     * current user and the session is authenticated; with no such user, or no
     * store, nothing changes.
     */
    method LoadUser(email: string)
      modifies this`currentUser, this`isAuthenticated
      ensures modelContext != null && UsersWithEmail(modelContext.users, email) != [] ==>
        currentUser == UsersWithEmail(modelContext.users, email)[0]
        && currentUser in modelContext.users && currentUser.email == email
        && isAuthenticated
      ensures modelContext == null || UsersWithEmail(modelContext.users, email) == [] ==>
        currentUser == old(currentUser) && isAuthenticated == old(isAuthenticated)
    {
      if modelContext == null {
        return;
      }
      var users := UsersWithEmail(modelContext.users, email);
      if users != [] {
        currentUser := users[0];
        isAuthenticated := true;
      }
    }

    /**
     * `signInWithGoogle(email:name:)`. Without a store it reports
     * "Datenbank nicht verfügbar". A stored user with this email becomes the
     * current user and nothing is created; otherwise a new user is inserted
     * and saved, becomes the current user, and new settings are inserted and
     * saved. A failed save stops there and reports the error. When nothing
     * failed the session email is stored and the session is authenticated.
     * Every exit leaves `isLoading` false.
     */
    method SignInWithGoogle(email: string, name: string, now: int, userId: int, settingsId: int,
                            userSaveError: Option<string>, settingsSaveError: Option<string>)
      modifies this`isAuthenticated, this`currentUser, this`isLoading, this`errorMessage
      modifies this`sessionEmail, {modelContext}`users, {modelContext}`settings
      ensures !isLoading
      ensures modelContext == null ==>
        errorMessage == Some(NoDatabase)
        && currentUser == old(currentUser) && isAuthenticated == old(isAuthenticated)
        && sessionEmail == old(sessionEmail)
      ensures modelContext != null && old(UsersWithEmail(modelContext.users, email)) != [] ==>
        currentUser == old(UsersWithEmail(modelContext.users, email))[0]
        && modelContext.users == old(modelContext.users)
        && modelContext.settings == old(modelContext.settings)
        && errorMessage == None
        && sessionEmail == Some(email) && isAuthenticated
      ensures modelContext != null && old(UsersWithEmail(modelContext.users, email)) == [] ==>
        NewAccount(old(modelContext.users), old(modelContext.settings), old(currentUser),
                   old(isAuthenticated), old(sessionEmail), email, name, now, userId, settingsId,
                   userSaveError, settingsSaveError)
    {
      isLoading := true;
      errorMessage := None;
      if modelContext == null {
        errorMessage := Some(NoDatabase);
        isLoading := false;
        return;
      }
      var existingUsers := UsersWithEmail(modelContext.users, email);
      if existingUsers != [] {
        currentUser := existingUsers[0];
        sessionEmail := Some(email);
        isAuthenticated := true;
      } else {
        CreateAccount(email, name, now, userId, settingsId, userSaveError, settingsSaveError);
      }
      isLoading := false;
    }

    /**
     * What signing in with a new email leaves: the new user appended to the
     * store with the given data and no entries; after a failed user save
     * nothing else; otherwise the user is current and new default settings are
     * appended; after a failed settings save the error is reported, otherwise
     * the session is stored and authenticated.
     */
    ghost predicate NewAccount(users0: seq<User>, settings0: seq<AppSettings>, user0: User?,
                               authenticated0: bool, session0: Option<string>,
                               email: string, name: string, now: int, userId: int, settingsId: int,
                               userSaveError: Option<string>, settingsSaveError: Option<string>)
      reads this`modelContext, this`errorMessage, this`currentUser, this`isAuthenticated, this`sessionEmail
      reads {modelContext}`users, {modelContext}`settings
      reads if modelContext == null then [] else modelContext.users
      reads if modelContext == null then [] else modelContext.settings
    {
      && modelContext != null
      && |modelContext.users| == |users0| + 1
      && var user := modelContext.users[|users0|];
      && modelContext.users == users0 + [user]
      && user.id == userId && user.email == email && user.name == name
      && user.createdAt == now && user.moodEntries == [] && user.healthEntries == []
      && (userSaveError.Some? ==>
            && errorMessage == Some(SignInFailed + userSaveError.value)
            && currentUser == user0 && isAuthenticated == authenticated0 && sessionEmail == session0
            && modelContext.settings == settings0)
      && (userSaveError.None? ==>
            && currentUser == user
            && |modelContext.settings| == |settings0| + 1
            && var settings := modelContext.settings[|settings0|];
            && modelContext.settings == settings0 + [settings]
            && settings.id == settingsId
            && settings.preferredLanguage == "de" && settings.notificationsEnabled
            && settings.autoSyncHealthData && settings.dailyReminderTime == Some(TimeOfDay(20, 0))
            && (settingsSaveError.Some? ==>
                  && errorMessage == Some(SignInFailed + settingsSaveError.value)
                  && isAuthenticated == authenticated0 && sessionEmail == session0)
            && (settingsSaveError.None? ==>
                  errorMessage == None && sessionEmail == Some(email) && isAuthenticated))
    }

    /** The part of `signInWithGoogle` that creates the user and its settings. */
    method CreateAccount(email: string, name: string, now: int, userId: int, settingsId: int,
                         userSaveError: Option<string>, settingsSaveError: Option<string>)
      requires modelContext != null && UsersWithEmail(modelContext.users, email) == []
      requires errorMessage == None
      modifies this`isAuthenticated, this`currentUser, this`errorMessage
      modifies this`sessionEmail, modelContext`users, modelContext`settings
      ensures NewAccount(old(modelContext.users), old(modelContext.settings), old(currentUser),
                         old(isAuthenticated), old(sessionEmail), email, name, now, userId, settingsId,
                         userSaveError, settingsSaveError)
    {
      var context := modelContext;
      var newUser := new User(userId, email, name, now);
      ghost var before := context.users;
      context.InsertUser(newUser);
      assert context.users[|before|] == newUser;
      if userSaveError.Some? {
        errorMessage := Some(SignInFailed + userSaveError.value);
        return;
      }
      currentUser := newUser;
      CreateSettings(email, settingsId, settingsSaveError);
    }

    /** The part of `signInWithGoogle` that creates the new user's settings and opens the session. */
    method CreateSettings(email: string, settingsId: int, settingsSaveError: Option<string>)
      requires modelContext != null
      modifies this`isAuthenticated, this`errorMessage, this`sessionEmail, modelContext`settings
      ensures |modelContext.settings| == |old(modelContext.settings)| + 1
      ensures var settings := modelContext.settings[|old(modelContext.settings)|];
        && modelContext.settings == old(modelContext.settings) + [settings]
        && fresh(settings) && settings.id == settingsId
        && settings.preferredLanguage == "de" && settings.notificationsEnabled
        && settings.autoSyncHealthData && settings.dailyReminderTime == Some(TimeOfDay(20, 0))
      ensures settingsSaveError.Some? ==>
        && errorMessage == Some(SignInFailed + settingsSaveError.value)
        && isAuthenticated == old(isAuthenticated) && sessionEmail == old(sessionEmail)
      ensures settingsSaveError.None? ==>
        errorMessage == old(errorMessage) && sessionEmail == Some(email) && isAuthenticated
    {
      var settings := new AppSettings(settingsId);
      modelContext.InsertSettings(settings);
      if settingsSaveError.Some? {
        errorMessage := Some(SignInFailed + settingsSaveError.value);
        return;
      }
      sessionEmail := Some(email);
      isAuthenticated := true;
    }

    /** `signOut`: the session email is removed and nobody is signed in. */
    method SignOut()
      modifies this`sessionEmail, this`currentUser, this`isAuthenticated
      ensures sessionEmail == None && currentUser == null && !isAuthenticated
    {
      sessionEmail := None;
      currentUser := null;
      isAuthenticated := false;
    }

    /**
     * `updateUserProfile`: the current user's age, weight, height and gender
     * are replaced and its update time refreshed; its email, name, creation
     * time and entries stay. Without a current user nothing changes. A failed
     * save, which needs a store, reports the error.
     */
    method UpdateUserProfile(age: Option<int>, weight: Option<real>, height: Option<real>,
                             gender: Option<string>, now: int, saveError: Option<string>)
      modifies this`errorMessage, currentUser
      ensures currentUser == null ==> errorMessage == old(errorMessage)
      ensures currentUser != null ==>
        && currentUser.age == age && currentUser.weight == weight
        && currentUser.height == height && currentUser.gender == gender
        && currentUser.updatedAt == now
        && currentUser.email == old(currentUser.email) && currentUser.name == old(currentUser.name)
        && currentUser.moodEntries == old(currentUser.moodEntries)
        && currentUser.healthEntries == old(currentUser.healthEntries)
        && (modelContext != null && saveError.Some? ==> errorMessage == Some(SaveFailed + saveError.value))
        && (modelContext == null || saveError.None? ==> errorMessage == old(errorMessage))
    {
      if currentUser == null {
        return;
      }
      var user := currentUser;
      user.age := age;
      user.weight := weight;
      user.height := height;
      user.gender := gender;
      user.UpdateTimestamp(now);
      if modelContext != null && saveError.Some? {
        errorMessage := Some(SaveFailed + saveError.value);
      }
    }
  }

  /**
   * Signing in with an email no stored user has appends a user with that
   * email: the emails stay unique, and a second sign-in finds that user.
   */
  lemma AddingNewEmailKeepsUnique(us: seq<User>, u: User)
    requires UsersWithEmail(us, u.email) == []
    ensures EmailsUnique(us) ==> EmailsUnique(us + [u])
    ensures UsersWithEmail(us + [u], u.email) != []
  {
    assert (us + [u])[|us|] == u;
    var all := us + [u];
    if EmailsUnique(us) {
      forall i, j | 0 <= i < j < |all| ensures all[i].email != all[j].email {
        if j == |us| {
          assert all[i] == us[i];
        } else {
          assert all[i] == us[i] && all[j] == us[j];
        }
      }
    }
  }
}
