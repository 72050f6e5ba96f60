/**
 * The profile screen (pages/Profile.js): filling the form from the session
 * keys, saving name and disability, logging out and clearing the posts.
 */
module Profile {
  import opened Wrappers
  import opened Text
  import opened Records
  import opened Storage
  import opened PostStore
  import opened Login

  const NameRequiredMessage: string := "O nome é obrigatório"
  const SavedMessage: string := "Alterações salvas com sucesso"
  const PostsClearedMessage: string := "Posts limpos com sucesso. Volte à tela inicial para atualizar."

  /** `if (stored) setField(stored)`: a present, non-empty stored value replaces the field; otherwise it keeps its value. */
  function FillField(current: string, stored: Option<string>): (r: string)
    ensures r == current || (stored.Some? && r == stored.value)
    ensures r != current ==> stored.Some? && stored.value != ""
    ensures stored.Some? && stored.value != "" ==> r == stored.value
  {
    if stored.Some? && stored.value != "" then stored.value else current
  }

  /**
   * The store after a profile save: `userName` and `userDisability` hold the
   * new values and every other key, `userEmail` included, is as it was.
   */
  function ProfileSaved(items: map<string, Blob>, name: string, disability: string): (r: map<string, Blob>)
    ensures ReadString(r, UserNameKey) == Some(name)
    ensures ReadString(r, UserDisabilityKey) == Some(disability)
    ensures r.Keys == items.Keys + {UserNameKey, UserDisabilityKey}
    ensures forall k :: k in items && k != UserNameKey && k != UserDisabilityKey ==> r[k] == items[k]
  {
    items[UserNameKey := Str(name)][UserDisabilityKey := Str(disability)]
  }

  class ProfileScreen {
    var name: string
    var disability: string
    var email: string
    var errorMessage: string

    constructor ()
      ensures name == "" && disability == "" && email == "" && errorMessage == ""
    {
      name, disability, email, errorMessage := "", "", "", "";
    }

    /** `loadProfile`: each field takes its session value only when that value is present and non-empty. */
    method LoadProfile(storage: Store)
      modifies this`name, this`disability, this`email
      ensures name == FillField(old(name), ReadString(storage.items, UserNameKey))
      ensures disability == FillField(old(disability), ReadString(storage.items, UserDisabilityKey))
      ensures email == FillField(old(email), ReadString(storage.items, UserEmailKey))
    {
      var storedName := ReadString(storage.items, UserNameKey);
      var storedDisability := ReadString(storage.items, UserDisabilityKey);
      var storedEmail := ReadString(storage.items, UserEmailKey);
      if storedName.Some? && storedName.value != "" {
        name := storedName.value;
      }
      if storedDisability.Some? && storedDisability.value != "" {
        disability := storedDisability.value;
      }
      if storedEmail.Some? && storedEmail.value != "" {
        email := storedEmail.value;
      }
    }

    /**
     * `handleSaveProfile`: a name that is blank after trimming is refused and
     * nothing is written; otherwise name and disability are written.
     */
    method HandleSaveProfile(storage: Store) returns (saved: bool)
      modifies this`errorMessage, storage
      ensures saved <==> !IsBlank(name)
      ensures saved ==> storage.items == ProfileSaved(old(storage.items), name, disability)
                        && errorMessage == SavedMessage
      ensures !saved ==> storage.items == old(storage.items) && errorMessage == NameRequiredMessage
    {
      if IsBlank(name) {
        errorMessage := NameRequiredMessage;
        return false;
      }
      storage.SetItem(UserNameKey, Str(name));
      storage.SetItem(UserDisabilityKey, Str(disability));
      errorMessage := SavedMessage;
      return true;
    }

    /** `handleLogout`: the call that would clear the store is commented out, so no key changes. */
    method HandleLogout(storage: Store)
      ensures storage.items == old(storage.items)
    {
    }

    /** `handleClearPosts`: removes the `'posts'` key and nothing else. */
    method HandleClearPosts(storage: Store)
      modifies this`errorMessage, storage
      ensures storage.items == old(storage.items) - {PostsKey}
      ensures errorMessage == PostsClearedMessage
    {
      storage.RemoveItem(PostsKey);
      errorMessage := PostsClearedMessage;
    }
  }

  /** Saving the profile keeps the session signed in and keeps its email. */
  lemma SaveKeepsSession(items: map<string, Blob>, name: string, disability: string)
    ensures IsLoggedIn(ProfileSaved(items, name, disability)) <==> IsLoggedIn(items)
    ensures ReadString(ProfileSaved(items, name, disability), UserEmailKey) == ReadString(items, UserEmailKey)
  {
  }

  /** Clearing the posts keeps the session signed in, and the next load of the home screen shows no posts. */
  lemma ClearPostsKeepsSession(items: map<string, Blob>, previous: seq<Post>)
    ensures IsLoggedIn(items - {PostsKey}) <==> IsLoggedIn(items)
    ensures LoadedPosts(items - {PostsKey}, previous) == []
  {
  }

  /** After logging in, the profile form shows the stored account's email, display name and non-empty disability. */
  lemma ProfileAfterLogin(items: map<string, Blob>, u: User)
    ensures var session := SessionAfterLogin(items, u);
            && FillField("", ReadString(session, UserEmailKey)) == u.email
            && FillField("", ReadString(session, UserNameKey)) == DisplayName(u)
            && FillField("", ReadString(session, UserDisabilityKey)) == u.disability
  {
  }
}
