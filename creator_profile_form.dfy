/** The creator onboarding form (components/auth/CreatorProfileForm.tsx): the language
    picker with its suggestion filter, the portfolio list capped at eight items whose
    preview list is kept beside it, and the save that uploads every file under a name
    derived from the user and the file's position. */
module CreatorProfileForm {
  import opened Wrappers
  import opened Text
  import opened Seqs
  import Profiles

  /** The languages the picker offers, in the order they are listed. */
  const LanguageOptions: seq<string> :=
    ["English", "Spanish", "French", "German", "Chinese", "Japanese", "Korean", "Russian",
     "Portuguese", "Italian", "Arabic"]

  /** The cap on portfolio items. */
  const MaxPortfolioItems: nat := 8

  /** The part of a browser `File` the form uses: its name. */
  datatype LocalFile = LocalFile(name: string)

  /** The two storage buckets. */
  datatype Bucket = ProfilePhotos | PortfolioItems

  datatype FormError = NoSession | UploadFailed

  /** The social links sent on completion; an empty input is left out. */
  datatype LinkFields = LinkFields(instagram: Option<string>, youtube: Option<string>, tiktok: Option<string>)

  /** The object passed to `onComplete`. */
  datatype ProfileData = ProfileData(
    socialLinks: LinkFields,
    portfolioUrl: Option<string>,
    location: string,
    languages: seq<string>,
    profilePhotoUrl: Option<string>,
    portfolioItems: seq<string>,
    userType: Profiles.UserType)

  /** Whether an option is still suggested for the picker's input. */
  function Suggested(chosen: seq<string>, input: string): string -> bool
  {
    (option: string) => option !in chosen && Includes(ToLower(option), ToLower(input))
  }

  /** `filteredLanguageOptions`: the options not chosen yet whose lower-case form contains
      the lower-case input, in the options' order. */
  function Suggestions(options: seq<string>, chosen: seq<string>, input: string): (r: seq<string>)
    ensures forall x :: x in r <==> x in options && x !in chosen && Includes(ToLower(x), ToLower(input))
    ensures IsSubsequence(r, options)
  {
    FilterIsSubsequence(Suggested(chosen, input), options);
    Filter(Suggested(chosen, input), options)
  }

  /** With nothing typed, every option not chosen yet is suggested, in order. */
  lemma EmptyInputSuggestsUnchosen(options: seq<string>, chosen: seq<string>)
    ensures Suggestions(options, chosen, "") == Filter(NotChosen(chosen), options)
  {
    forall i | 0 <= i < |options|
      ensures Suggested(chosen, "")(options[i]) == NotChosen(chosen)(options[i])
    {
      IncludesEmpty(ToLower(options[i]));
    }
    FilterCongruent(Suggested(chosen, ""), NotChosen(chosen), options);
  }

  function NotChosen(chosen: seq<string>): string -> bool
  {
    (option: string) => option !in chosen
  }

  /** A chosen language is never suggested again, whatever is typed. */
  lemma ChosenNotSuggested(options: seq<string>, chosen: seq<string>, input: string, language: string)
    requires language in chosen
    ensures language !in Suggestions(options, chosen, input)
  {
  }

  /** `file.name.split('.').pop()`: the text after the last '.', the whole name when it
      has none. */
  function FileExtension(name: string): (r: string)
    ensures '.' !in r
    ensures EndPiece(name, r, '.')
  {
    SplitLast(name, '.');
    LastPiece(name, '.')
  }

  /** A name without a '.' is its own extension. */
  lemma ExtensionOfPlainName(name: string)
    requires '.' !in name
    ensures FileExtension(name) == name
  {
    SplitFree(name, '.');
  }

  const PortfolioInfix := "/portfolio-"
  const ProfilePhotoInfix := "/profile-photo."

  /** `${userId}/portfolio-${i}.${fileExt}`. */
  function PortfolioFileName(userId: string, i: nat, name: string): string
  {
    userId + PortfolioInfix + NatToString(i) + "." + FileExtension(name)
  }

  /** `${userId}/profile-photo.${fileExt}`. */
  function ProfilePhotoFileName(userId: string, name: string): string
  {
    userId + ProfilePhotoInfix + FileExtension(name)
  }

  /** Items at different positions are uploaded under different names, so no upload
      overwrites another. */
  lemma PortfolioNamesDistinct(userId: string, i: nat, j: nat, a: string, b: string)
    requires i != j
    ensures PortfolioFileName(userId, i, a) != PortfolioFileName(userId, j, b)
  {
    var p := userId + PortfolioInfix;
    var di, dj := NatToString(i), NatToString(j);
    var x := di + "." + FileExtension(a);
    var y := dj + "." + FileExtension(b);
    assert PortfolioFileName(userId, i, a) == p + x;
    assert PortfolioFileName(userId, j, b) == p + y;
    if p + x == p + y {
      assert x == (p + x)[|p|..] && y == (p + y)[|p|..];
      DigitsBeforeDot(di, FileExtension(a), dj, FileExtension(b));
      NatToStringInjective(i, j);
    }
  }

  /** Digits followed by a '.' are read back unambiguously. */
  lemma DigitsBeforeDot(d1: string, e1: string, d2: string, e2: string)
    requires forall k :: 0 <= k < |d1| ==> '0' <= d1[k] <= '9'
    requires forall k :: 0 <= k < |d2| ==> '0' <= d2[k] <= '9'
    requires d1 + "." + e1 == d2 + "." + e2
    ensures d1 == d2
  {
    var x := d1 + "." + e1;
    assert x[|d1|] == '.' && x[|d2|] == '.';
    assert forall k :: 0 <= k < |d1| ==> x[k] == d1[k];
    assert forall k :: 0 <= k < |d2| ==> x[k] == d2[k];
    assert |d1| == |d2|;
    assert d1 == x[..|d1|] && d2 == x[..|d2|];
  }

  /** Every portfolio file name lies in the user's folder. */
  lemma PortfolioNameInUserFolder(userId: string, i: nat, name: string)
    ensures StartsWith(PortfolioFileName(userId, i, name), userId + "/")
  {
    assert PortfolioFileName(userId, i, name)[..|userId| + 1] == userId + "/";
  }

  /** `value || undefined`. */
  function OrUndefined(value: string): (r: Option<string>)
    ensures r.None? <==> value == ""
    ensures r.Some? ==> r.value == value
  {
    if value == "" then None else Some(value)
  }

  /** Reading an omitted field back as empty restores the input: `undefined` loses nothing. */
  lemma OrUndefinedRoundTrip(value: string)
    ensures OrUndefined(value).GetOr("") == value
  {
  }

  /** Where item `k` is uploaded. */
  function ItemTarget(userId: string, files: seq<LocalFile>, k: nat): (Bucket, string)
    requires k < |files|
  {
    (PortfolioItems, PortfolioFileName(userId, k, files[k].name))
  }

  /** The upload targets of the items, in item order. */
  function ItemTargets(userId: string, files: seq<LocalFile>): (r: seq<(Bucket, string)>)
  {
    seq(|files|, k requires 0 <= k < |files| => ItemTarget(userId, files, k))
  }

  /** The public URLs of some stored names, in order. */
  function Urls(targets: seq<(Bucket, string)>, publicUrl: (Bucket, string) -> string): (r: seq<string>)
  {
    seq(|targets|, k requires 0 <= k < |targets| => publicUrl(targets[k].0, targets[k].1))
  }

  /** Whether storage takes every one of some uploads. */
  predicate AllAccepted(targets: seq<(Bucket, string)>, rejected: set<(Bucket, string)>)
  {
    forall k :: 0 <= k < |targets| ==> targets[k] !in rejected
  }

  /** The public URLs of the portfolio uploads, in item order. */
  function PortfolioUrls(userId: string, files: seq<LocalFile>, publicUrl: (Bucket, string) -> string): seq<string>
  {
    Urls(ItemTargets(userId, files), publicUrl)
  }

  /** Whether storage takes every portfolio upload. */
  predicate PortfolioAccepted(userId: string, files: seq<LocalFile>, rejected: set<(Bucket, string)>)
  {
    AllAccepted(ItemTargets(userId, files), rejected)
  }

  /** The upload loop over the stored names: each upload's public URL is pushed in turn;
      the first upload storage rejects (a name in `rejected`) ends the loop. */
  method UploadEach(targets: seq<(Bucket, string)>, rejected: set<(Bucket, string)>,
                    publicUrl: (Bucket, string) -> string)
    returns (urls: seq<string>, ok: bool)
    ensures ok <==> AllAccepted(targets, rejected)
    ensures ok ==> |urls| == |targets|
    ensures ok ==> forall k :: 0 <= k < |targets| ==> urls[k] == publicUrl(targets[k].0, targets[k].1)
  {
    urls := [];
    var i := 0;
    while i < |targets|
      invariant 0 <= i <= |targets|
      invariant |urls| == i
      invariant forall k :: 0 <= k < i ==> urls[k] == publicUrl(targets[k].0, targets[k].1)
      invariant forall k :: 0 <= k < i ==> targets[k] !in rejected
    {
      if targets[i] in rejected {
        ok := false;
        return;
      }
      urls := urls + [publicUrl(targets[i].0, targets[i].1)];
      i := i + 1;
    }
    ok := true;
  }

  /** The portfolio upload loop: item `i` goes to its own portfolio name, and the public
      URLs are pushed in item order unless some upload is rejected. */
  method UploadPortfolio(userId: string, files: seq<LocalFile>, rejected: set<(Bucket, string)>,
                         publicUrl: (Bucket, string) -> string)
    returns (urls: seq<string>, ok: bool)
    ensures ok <==> PortfolioAccepted(userId, files, rejected)
    ensures ok ==> |urls| == |files|
    ensures ok ==> urls == PortfolioUrls(userId, files, publicUrl)
  {
    var targets := ItemTargets(userId, files);
    urls, ok := UploadEach(targets, rejected, publicUrl);
    assert ok ==> urls == Urls(targets, publicUrl);
  }

  /** Item `i` is uploaded under its own portfolio name and its URL is that name's. */
  lemma PortfolioUrlOfItem(userId: string, files: seq<LocalFile>, publicUrl: (Bucket, string) -> string, i: nat)
    requires i < |files|
    ensures |PortfolioUrls(userId, files, publicUrl)| == |files|
    ensures PortfolioUrls(userId, files, publicUrl)[i] == publicUrl(PortfolioItems, PortfolioFileName(userId, i, files[i].name))
  {
  }

  /** The form component's state; `completed` lists the objects passed to `onComplete`. */
  class CreatorProfileFormState {
    var instagramUrl: string
    var youtubeUrl: string
    var tiktokUrl: string
    var portfolioUrl: string
    var location: string
    var languages: seq<string>
    var languageInput: string
    var profilePhoto: Option<LocalFile>
    var items: seq<LocalFile>
    var previews: seq<string>
    var loading: bool
    var error: Option<FormError>
    var completed: seq<ProfileData>

    constructor()
      ensures languages == [] && languageInput == "" && profilePhoto.None? && items == [] && previews == []
      ensures !loading && error.None? && completed == []
    {
      instagramUrl, youtubeUrl, tiktokUrl, portfolioUrl, location := "", "", "", "", "";
      languages, languageInput := [], "";
      profilePhoto := None;
      items, previews := [], [];
      loading := false;
      error := None;
      completed := [];
    }

    /** The suggestions under the language input. */
    function ShownSuggestions(): seq<string>
      reads this`languages, this`languageInput
    {
      Suggestions(LanguageOptions, languages, languageInput)
    }

    /** Whether the file input still takes portfolio items. */
    predicate PortfolioInputEnabled()
      reads this`items
    {
      |items| < MaxPortfolioItems
    }

    /** `handleAddLanguage`: appended only when absent; the input is cleared either way. */
    method AddLanguage(language: string)
      modifies this`languages, this`languageInput
      ensures language in old(languages) ==> languages == old(languages)
      ensures language !in old(languages) ==> languages == old(languages) + [language]
      ensures languageInput == ""
      ensures NoDuplicates(old(languages)) ==> NoDuplicates(languages)
    {
      if language !in languages {
        languages := languages + [language];
      }
      languageInput := "";
    }

    /** `handleRemoveLanguage`: every entry equal to `language` goes, the rest keep their order. */
    method RemoveLanguage(language: string)
      modifies this`languages
      ensures languages == Filter(Differs(language), old(languages))
      ensures language !in languages
      ensures IsSubsequence(languages, old(languages))
    {
      FilterIsSubsequence(Differs(language), languages);
      languages := Filter(Differs(language), languages);
    }

    /** `handleProfilePhotoChange`: the first picked file, when there is one. */
    method ChoosePhoto(picked: seq<LocalFile>)
      modifies this`profilePhoto
      ensures picked != [] ==> profilePhoto == Some(picked[0])
      ensures picked == [] ==> profilePhoto == old(profilePhoto)
    {
      if |picked| > 0 {
        profilePhoto := Some(picked[0]);
      }
    }

    /** `handlePortfolioItemsChange`: `picked` is the input's file list (`None` when it
        is null) and `newPreviews` their object URLs, one per file. Both lists are the old
        one followed by the new entries, cut to eight. */
    method AddPortfolioItems(picked: Option<seq<LocalFile>>, newPreviews: seq<string>)
      requires picked.Some? ==> |newPreviews| == |picked.value|
      modifies this`items, this`previews
      ensures picked.None? ==> items == old(items) && previews == old(previews)
      ensures picked.Some? ==> items == Take(old(items) + picked.value, MaxPortfolioItems)
                               && previews == Take(old(previews) + newPreviews, MaxPortfolioItems)
      ensures picked.Some? ==> |items| <= MaxPortfolioItems
      ensures |old(items)| <= MaxPortfolioItems ==> items[..|old(items)|] == old(items)
      ensures |old(items)| == MaxPortfolioItems ==> items == old(items)
      ensures |old(items)| == |old(previews)| ==> |items| == |previews|
    {
      if picked.Some? {
        items := Take(items + picked.value, MaxPortfolioItems);
        previews := Take(previews + newPreviews, MaxPortfolioItems);
      }
    }

    /** `handleRemovePortfolioItem`: the items are filtered by position, the previews
        spliced; for an index of the list both lose the same entry. */
    method RemovePortfolioItem(index: int)
      modifies this`items, this`previews
      ensures items == WithoutIndex(old(items), index)
      ensures previews == SpliceOut(old(previews), index)
      ensures 0 <= index < |old(items)| && |old(items)| == |old(previews)| ==>
                |items| == |previews| == |old(items)| - 1
    {
      items := WithoutIndex(items, index);
      previews := SpliceOut(previews, index);
    }

    /** The object `handleSubmit` passes to `onComplete`. */
    function Payload(photoUrl: Option<string>, portfolioUrls: seq<string>): ProfileData
      reads this`instagramUrl, this`youtubeUrl, this`tiktokUrl, this`portfolioUrl, this`location, this`languages
    {
      ProfileData(LinkFields(OrUndefined(instagramUrl), OrUndefined(youtubeUrl), OrUndefined(tiktokUrl)),
                  OrUndefined(portfolioUrl), location, languages, photoUrl, portfolioUrls, Profiles.Creator)
    }

    /** The payload carries the form as typed: each link and the portfolio URL read back
        with empty for `undefined`, the rest as they are. */
    lemma PayloadRoundTrip(photoUrl: Option<string>, portfolioUrls: seq<string>)
      ensures var p := Payload(photoUrl, portfolioUrls);
              p.socialLinks.instagram.GetOr("") == instagramUrl && p.socialLinks.youtube.GetOr("") == youtubeUrl
              && p.socialLinks.tiktok.GetOr("") == tiktokUrl && p.portfolioUrl.GetOr("") == portfolioUrl
              && p.location == location && p.languages == languages
              && p.profilePhotoUrl == photoUrl && p.portfolioItems == portfolioUrls && p.userType == Profiles.Creator
    {
      OrUndefinedRoundTrip(instagramUrl);
      OrUndefinedRoundTrip(youtubeUrl);
      OrUndefinedRoundTrip(tiktokUrl);
      OrUndefinedRoundTrip(portfolioUrl);
    }

    /** `handleSubmit`: `session` is the signed-in user's id (`None` without a session),
        `rejected` the uploads storage refuses and `publicUrl` its URL for a stored name.
        `onComplete` is called only when every upload went through. */
    method Submit(session: Option<string>, rejected: set<(Bucket, string)>, publicUrl: (Bucket, string) -> string)
      modifies this`loading, this`error, this`completed
      ensures !loading
      ensures session.None? ==> error == Some(NoSession) && completed == old(completed)
      ensures session.Some? && profilePhoto.Some?
              && (ProfilePhotos, ProfilePhotoFileName(session.value, profilePhoto.value.name)) in rejected ==>
                error == Some(UploadFailed) && completed == old(completed)
      ensures session.Some? && !PortfolioAccepted(session.value, items, rejected) ==>
                error == Some(UploadFailed) && completed == old(completed)
      ensures session.Some?
              && (profilePhoto.Some? ==> (ProfilePhotos, ProfilePhotoFileName(session.value, profilePhoto.value.name)) !in rejected)
              && PortfolioAccepted(session.value, items, rejected) ==>
                error.None?
                && completed == old(completed) + [Payload(
                     if profilePhoto.Some? then Some(publicUrl(ProfilePhotos, ProfilePhotoFileName(session.value, profilePhoto.value.name)))
                     else None,
                     PortfolioUrls(session.value, items, publicUrl))]
    {
      loading := true;
      error := None;
      if session.None? {
        error := Some(NoSession);
        loading := false;
        return;
      }
      var userId := session.value;
      var photoUrl: Option<string> := None;
      if profilePhoto.Some? {
        var fileName := ProfilePhotoFileName(userId, profilePhoto.value.name);
        if (ProfilePhotos, fileName) in rejected {
          error := Some(UploadFailed);
          loading := false;
          return;
        }
        photoUrl := Some(publicUrl(ProfilePhotos, fileName));
      }
      var portfolioUrls, ok := UploadPortfolio(userId, items, rejected, publicUrl);
      if !ok {
        error := Some(UploadFailed);
        loading := false;
        return;
      }
      completed := completed + [Payload(photoUrl, portfolioUrls)];
      loading := false;
    }
  }
}
