/**
 * The profile card: the stored picture is shown as it is only when it names an image
 * file by its extension; anything else shows the default picture.
 */
module UserProfile {
  import opened Wrappers
  import opened Text
  import opened Http
  import opened ProfileRules

  const DefaultPicture := "/src/assets/social.png"

  const ImageExtensions: seq<string> := ["jpeg", "jpg", "png", "gif", "bmp", "webp"]

  /** `/\.(jpeg|jpg|png|gif|bmp|webp)$/i`: the name ends with a dot and one of the extensions, in any letter case. */
  predicate HasImageExtension(name: string) {
    exists i | 0 <= i < |ImageExtensions| :: EndsWith(ToLower(name), "." + ImageExtensions[i])
  }

  /** The picture shown: the stored value itself when it is non-empty and has an image extension, else the default. */
  function ShownPicture(stored: Option<string>): (url: string)
    ensures stored.Some? && stored.value != "" && HasImageExtension(stored.value) ==> url == stored.value
    ensures stored.None? || stored.value == "" || !HasImageExtension(stored.value) ==> url == DefaultPicture
  {
    if stored.Some? && stored.value != "" && HasImageExtension(stored.value) then stored.value else DefaultPicture
  }

  /**
   * The extension match ignores letter case: any name whose extension is, in some
   * mix of cases, one of the image extensions is shown as it is stored.
   */
  lemma CaseBlindExtensionShown(base: string, ext: string, i: int)
    requires 0 <= i < |ImageExtensions| && ToLower(ext) == ImageExtensions[i]
    ensures ShownPicture(Some(base + "." + ext)) == base + "." + ext
  {
  }

  /** A name that ends, in lower case, with a dotted suffix has a dot. */
  lemma DotOfSuffix(name: string, suffix: string)
    requires |suffix| > 0 && suffix[0] == '.'
    ensures EndsWith(ToLower(name), suffix) ==> '.' in name
  {
    if EndsWith(ToLower(name), suffix) {
      assert ToLower(name)[|name| - |suffix|] == '.';
      assert name[|name| - |suffix|] == '.';
    }
  }

  /** A stored file name without a dot is not shown. */
  lemma NoExtensionIsDefault(stored: string)
    requires '.' !in stored
    ensures ShownPicture(Some(stored)) == DefaultPicture
  {
    forall i | 0 <= i < |ImageExtensions|
      ensures !EndsWith(ToLower(stored), "." + ImageExtensions[i])
    {
      DotOfSuffix(stored, "." + ImageExtensions[i]);
    }
  }

  /** The card's state. */
  class ProfileCard {
    var userData: Option<UserRecord>
    var profilePicture: Option<string>
    var loading: bool
    var error: string

    constructor()
      ensures userData.None? && profilePicture.None? && loading && error == ""
    {
      userData, profilePicture, loading, error := None, None, true, "";
    }

    /** The fetch effect, given how the GET ended; `loading` ends false on both paths. */
    method FetchUserData(response: Outcome<UserRecord>)
      modifies this`loading, this`userData, this`profilePicture, this`error
      ensures !loading
      ensures response.Done? ==>
                userData == Some(response.value) && profilePicture == Some(ShownPicture(response.value.profilePicture))
                && error == old(error)
      ensures response.Failed? ==>
                userData == old(userData) && profilePicture == Some(DefaultPicture) && error == LoadErrorText(response.failure)
    {
      loading := true;
      if response.Done? {
        userData := Some(response.value);
        var stored := response.value.profilePicture;
        var isImage := stored.Some? && HasImageExtension(stored.value);
        if stored.Some? && stored.value != "" && isImage {
          profilePicture := Some(stored.value);
        } else {
          profilePicture := Some(DefaultPicture);
        }
      } else {
        if response.failure.NonError? {
          error := UnknownError;
        } else {
          error := LoadPrefix + MessageOf(response.failure);
        }
        profilePicture := Some(DefaultPicture);
      }
      loading := false;
    }
  }
}
