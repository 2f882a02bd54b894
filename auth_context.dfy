// The authentication context: who is signed in (the Firebase user and the
// application's own user record built from it and the profile document), whether
// the visitor chose guest mode (persisted under a storage flag), and whether the
// first authentication event has arrived yet.

module AuthContext {
  import opened Text

  /** The storage key of the guest flag and the value that means "guest". */
  const GuestKey: string := "mavrixfy_guest_mode"
  const GuestOn: string := "true"

  /** The fields of a Firebase user the context reads; a null field is `None`. */
  datatype FirebaseUser = FirebaseUser(uid: string, email: Option<string>, displayName: Option<string>, photoURL: Option<string>)

  /** A profile document in the `users` collection, the fields the context reads or writes. */
  datatype Profile = Profile(email: Option<string>, fullName: Option<string>, displayName: Option<string>,
                             imageUrl: Option<string>, photoURL: Option<string>)

  /** Reading a profile: it failed, there is no document, or here it is. */
  datatype ProfileRead = ReadFailed | NoProfile | Found(profile: Profile)

  /** The application's user record. */
  datatype AppUser = AppUser(id: string, email: string, name: string, picture: string)

  /** `a || b` for optional strings: an absent or empty value gives way to `b`. */
  function OrText(a: Option<string>, b: string): (r: string)
    ensures a.Some? && a.value != "" ==> r == a.value
    ensures a.None? || a.value == "" ==> r == b
  {
    if a.Some? && a.value != "" then a.value else b
  }

  /** `buildAppUser`: profile fields win over the Firebase user's own; a failed read is ignored. */
  function BuildAppUser(fb: FirebaseUser, read: ProfileRead): AppUser {
    var name := OrText(fb.displayName, "");
    var picture := OrText(fb.photoURL, "");
    if read.Found? then
      AppUser(fb.uid, OrText(fb.email, ""),
        OrText(read.profile.fullName, OrText(read.profile.displayName, name)),
        OrText(read.profile.imageUrl, OrText(read.profile.photoURL, picture)))
    else
      AppUser(fb.uid, OrText(fb.email, ""), name, picture)
  }

  /**
   * The name is the profile's full name, else its display name, else the
   * Firebase display name, else ""; the picture likewise runs image url,
   * photo url, the Firebase photo url, "". Without a profile (or when
   * reading it fails) the Firebase fields are used. The id is always the uid.
   */
  lemma BuildAppUserRules(fb: FirebaseUser, read: ProfileRead)
    ensures BuildAppUser(fb, read).id == fb.uid
    ensures BuildAppUser(fb, read).email == OrText(fb.email, "")
    ensures !read.Found? ==> (BuildAppUser(fb, read).name == OrText(fb.displayName, "") &&
      BuildAppUser(fb, read).picture == OrText(fb.photoURL, ""))
    ensures read.Found? ==>
      var p := read.profile;
      var u := BuildAppUser(fb, read);
      (p.fullName.Some? && p.fullName.value != "" ==> u.name == p.fullName.value) &&
      ((p.fullName.None? || p.fullName.value == "") && p.displayName.Some? && p.displayName.value != "" ==>
        u.name == p.displayName.value) &&
      ((p.fullName.None? || p.fullName.value == "") && (p.displayName.None? || p.displayName.value == "") ==>
        u.name == OrText(fb.displayName, "")) &&
      (p.imageUrl.Some? && p.imageUrl.value != "" ==> u.picture == p.imageUrl.value) &&
      ((p.imageUrl.None? || p.imageUrl.value == "") && (p.photoURL.None? || p.photoURL.value == "") ==>
        u.picture == OrText(fb.photoURL, ""))
  {
  }

  /** The profile `register` writes: the email and full name, no image. */
  function RegisteredProfile(email: string, fullName: string): Profile {
    Profile(Some(email), Some(fullName), None, None, None)
  }

  /** The profile a first Google sign-in writes: email, display name or "", photo or null. */
  function GoogleProfile(fb: FirebaseUser): Profile {
    Profile(fb.email, Some(OrText(fb.displayName, "")), None,
      if fb.photoURL.Some? && fb.photoURL.value != "" then fb.photoURL else None, None)
  }

  /** A registered user read back later gets the full name they registered with. */
  lemma RegisteredUserReadsBack(fb: FirebaseUser, email: string, fullName: string)
    requires fb.displayName == Some(fullName)
    ensures BuildAppUser(fb, Found(RegisteredProfile(email, fullName))).name == fullName
  {
  }

  /** A first Google sign-in keeps the Google name and photo when the profile is read back. */
  lemma GoogleUserReadsBack(fb: FirebaseUser)
    ensures BuildAppUser(fb, Found(GoogleProfile(fb))).name == OrText(fb.displayName, "")
    ensures BuildAppUser(fb, Found(GoogleProfile(fb))).picture == OrText(fb.photoURL, "")
  {
  }

  /** The provider's state, the guest flag in device storage and the profile documents. */
  class AuthState {
    var user: Option<AppUser>
    var firebaseUser: Option<FirebaseUser>
    var loading: bool
    var isGuest: bool
    var guestFlag: Option<string>
    var profiles: map<string, Profile>

    /** `isAuthenticated: !!user`. */
    function IsAuthenticated(): (r: bool)
      reads this
      ensures r <==> user.Some?
    {
      user != None
    }

    /** A guest flag in memory is always backed by the stored flag. */
    predicate Valid()
      reads this
    {
      isGuest ==> guestFlag == Some(GuestOn)
    }

    /** Nobody signed in and nothing loaded yet; storage and profiles are as found. */
    constructor(storedFlag: Option<string>, storedProfiles: map<string, Profile>)
      ensures user == None && firebaseUser == None && loading && !isGuest
      ensures guestFlag == storedFlag && profiles == storedProfiles
      ensures Valid()
    {
      user, firebaseUser, loading, isGuest := None, None, true, false;
      guestFlag, profiles := storedFlag, storedProfiles;
    }

    function ReadProfile(uid: string, readOk: bool): ProfileRead
      reads this
    {
      if !readOk then ReadFailed else if uid in profiles then Found(profiles[uid]) else NoProfile
    }

    /** `checkGuest`: a stored flag equal to "true" turns guest mode on; a failed read changes nothing. */
    method CheckGuest(readOk: bool)
      requires Valid()
      modifies this
      ensures isGuest == (old(isGuest) || (readOk && guestFlag == Some(GuestOn)))
      ensures user == old(user) && firebaseUser == old(firebaseUser) && loading == old(loading)
      ensures guestFlag == old(guestFlag) && profiles == old(profiles)
      ensures Valid()
    {
      if readOk && guestFlag == Some(GuestOn) {
        isGuest := true;
      }
    }

    /** The common end of every successful sign-in: the user is set and guest mode is left. */
    method SignedIn(fb: FirebaseUser, appUser: AppUser)
      modifies this
      ensures user == Some(appUser) && firebaseUser == Some(fb)
      ensures !isGuest && guestFlag == None
      ensures loading == old(loading) && profiles == old(profiles)
      ensures Valid()
    {
      user := Some(appUser);
      firebaseUser := Some(fb);
      isGuest := false;
      guestFlag := None;
    }

    /**
     * The `onAuthStateChanged` listener: a user signs in as above, a
     * signed-out event clears the user but keeps guest mode; either way
     * loading ends.
     */
    method OnAuthStateChanged(fb: Option<FirebaseUser>, readOk: bool)
      requires Valid()
      modifies this
      ensures fb.Some? ==> (user == Some(BuildAppUser(fb.value, old(ReadProfile(fb.value.uid, readOk)))) &&
        firebaseUser == fb && !isGuest && guestFlag == None)
      ensures fb.None? ==> user == None && firebaseUser == None && isGuest == old(isGuest) && guestFlag == old(guestFlag)
      ensures !loading && profiles == old(profiles)
      ensures Valid()
    {
      if fb.Some? {
        var appUser := BuildAppUser(fb.value, ReadProfile(fb.value.uid, readOk));
        SignedIn(fb.value, appUser);
      } else {
        firebaseUser := None;
        user := None;
      }
      loading := false;
    }

    /** `login`: a rejected sign-in throws (ok is false) and changes nothing. */
    method Login(signIn: Option<FirebaseUser>, readOk: bool) returns (ok: bool)
      requires Valid()
      modifies this
      ensures ok <==> signIn.Some?
      ensures ok ==> (user == Some(BuildAppUser(signIn.value, old(ReadProfile(signIn.value.uid, readOk)))) &&
        firebaseUser == signIn && !isGuest && guestFlag == None && loading == old(loading) && profiles == old(profiles))
      ensures !ok ==> unchanged(this)
      ensures Valid()
    {
      if signIn.None? {
        return false;
      }
      var appUser := BuildAppUser(signIn.value, ReadProfile(signIn.value.uid, readOk));
      SignedIn(signIn.value, appUser);
      ok := true;
    }

    /**
     * `register`: the account is created, its display name set to the full
     * name and its profile written; a failure at creation or at the profile
     * write throws before the state changes.
     */
    method Register(email: string, fullName: string, created: Option<FirebaseUser>, writeOk: bool) returns (ok: bool)
      requires Valid()
      modifies this
      ensures ok <==> created.Some? && writeOk
      ensures ok ==>
        var fb := created.value.(displayName := Some(fullName));
        profiles == old(profiles)[fb.uid := RegisteredProfile(email, fullName)] &&
        user == Some(AppUser(fb.uid, email, fullName, "")) && firebaseUser == Some(fb) &&
        !isGuest && guestFlag == None && loading == old(loading)
      ensures !ok ==> unchanged(this)
      ensures Valid()
    {
      if created.None? || !writeOk {
        return false;
      }
      var fb := created.value.(displayName := Some(fullName));
      profiles := profiles[fb.uid := RegisteredProfile(email, fullName)];
      SignedIn(fb, AppUser(fb.uid, email, fullName, ""));
      ok := true;
    }

    /**
     * `signInWithGoogleCredential` (and `signInWithGoogle` on the web): the
     * profile is written on the first sign-in, then the user is built from it.
     * A failed sign-in, profile lookup or profile write throws.
     */
    method SignInWithGoogleCredential(signIn: Option<FirebaseUser>, lookupOk: bool, writeOk: bool, readOk: bool)
      returns (ok: bool)
      requires Valid()
      modifies this
      ensures ok <==> signIn.Some? && lookupOk && (signIn.value.uid in old(profiles) || writeOk)
      ensures ok ==>
        var fb := signIn.value;
        profiles == (if fb.uid in old(profiles) then old(profiles) else old(profiles)[fb.uid := GoogleProfile(fb)]) &&
        user == Some(BuildAppUser(fb, if readOk then Found(profiles[fb.uid]) else ReadFailed)) &&
        firebaseUser == Some(fb) && !isGuest && guestFlag == None && loading == old(loading)
      ensures !ok ==> unchanged(this)
      ensures Valid()
    {
      if signIn.None? || !lookupOk {
        return false;
      }
      var fb := signIn.value;
      if fb.uid !in profiles {
        if !writeOk {
          return false;
        }
        profiles := profiles[fb.uid := GoogleProfile(fb)];
      }
      SignedIn(fb, BuildAppUser(fb, ReadProfile(fb.uid, readOk)));
      ok := true;
    }

    /** `signInWithGoogle`: the popup flow exists only on the web; elsewhere it throws. */
    method SignInWithGoogle(isWeb: bool, signIn: Option<FirebaseUser>, lookupOk: bool, writeOk: bool, readOk: bool)
      returns (ok: bool)
      requires Valid()
      modifies this
      ensures !isWeb ==> !ok && unchanged(this)
      ensures ok <==> isWeb && signIn.Some? && lookupOk && (signIn.value.uid in old(profiles) || writeOk)
      ensures ok ==>
        var fb := signIn.value;
        profiles == (if fb.uid in old(profiles) then old(profiles) else old(profiles)[fb.uid := GoogleProfile(fb)]) &&
        user == Some(BuildAppUser(fb, if readOk then Found(profiles[fb.uid]) else ReadFailed)) &&
        firebaseUser == Some(fb) && !isGuest && guestFlag == None && loading == old(loading)
      ensures !ok ==> unchanged(this)
      ensures Valid()
    {
      if !isWeb {
        return false;
      }
      ok := SignInWithGoogleCredential(signIn, lookupOk, writeOk, readOk);
    }

    /** `continueAsGuest`: guest mode on, nobody signed in, flag stored. */
    method ContinueAsGuest()
      modifies this
      ensures isGuest && user == None && firebaseUser == None && guestFlag == Some(GuestOn)
      ensures loading == old(loading) && profiles == old(profiles)
      ensures Valid()
    {
      isGuest := true;
      user := None;
      firebaseUser := None;
      guestFlag := Some(GuestOn);
    }

    /** `logout`: the sign-out's own failure is ignored; the state is cleared regardless. */
    method Logout(signOutOk: bool)
      modifies this
      ensures user == None && firebaseUser == None && !isGuest && guestFlag == None
      ensures loading == old(loading) && profiles == old(profiles)
      ensures Valid()
    {
      user := None;
      firebaseUser := None;
      isGuest := false;
      guestFlag := None;
    }

    /**
     * `refreshUser`: rebuilds the user from Firebase's current user, if any.
     * Guest mode is left as it is.
     */
    method RefreshUser(current: Option<FirebaseUser>, readOk: bool)
      requires Valid()
      modifies this
      ensures current.Some? ==> user == Some(BuildAppUser(current.value, old(ReadProfile(current.value.uid, readOk))))
      ensures current.None? ==> user == old(user)
      ensures firebaseUser == old(firebaseUser) && isGuest == old(isGuest) && guestFlag == old(guestFlag)
      ensures loading == old(loading) && profiles == old(profiles)
      ensures Valid()
    {
      if current.Some? {
        user := Some(BuildAppUser(current.value, ReadProfile(current.value.uid, readOk)));
      }
    }
  }

  /**
   * Guest mode survives a restart: after choosing it, a new provider over the
   * same storage comes back as a guest once the flag is read, and after
   * logging out it does not.
   */
  method GuestModeSurvivesRestart(profiles: map<string, Profile>) returns (asGuest: bool, afterLogout: bool)
    ensures asGuest && !afterLogout
  {
    var a := new AuthState(None, profiles);
    a.ContinueAsGuest();
    var b := new AuthState(a.guestFlag, profiles);
    b.CheckGuest(true);
    asGuest := b.isGuest;
    b.Logout(false);
    var c := new AuthState(b.guestFlag, profiles);
    c.CheckGuest(true);
    afterLogout := c.isGuest;
  }
}
