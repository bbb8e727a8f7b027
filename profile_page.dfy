/** The profile editing page (app/profile/page.tsx): the language list, the social-link
    URL checks with their pattern written out as a recogniser, the load of the profile
    and its type-specific extension row, and the ordered save. */
module ProfilePage {
  import opened Wrappers
  import opened Text
  import opened Seqs
  import opened Profiles

  // ---------------------------------------------------------------------------
  // The URL pattern of `validateUrls` (lines 182-183):
  //   optional `http://` or `https://`, a word of `[\w-]`, one `.`, between 2 and 63
  //   letters, then any run of `[/\w-]` and an optional `/`.

  /** `[\w-]`. */
  predicate IsLabelChar(c: char)
  {
    'a' <= c <= 'z' || 'A' <= c <= 'Z' || '0' <= c <= '9' || c == '_' || c == '-'
  }

  /** `[a-zA-Z]`. */
  predicate IsLetter(c: char)
  {
    'a' <= c <= 'z' || 'A' <= c <= 'Z'
  }

  /** `[/\w-]`. */
  predicate IsPathChar(c: char)
  {
    IsLabelChar(c) || c == '/'
  }

  /** The number of leading word characters. */
  function LabelLength(t: string): (n: nat)
    ensures n <= |t|
    ensures forall k :: 0 <= k < n ==> IsLabelChar(t[k])
    ensures n < |t| ==> !IsLabelChar(t[n])
  {
    if t == [] || !IsLabelChar(t[0]) then 0 else 1 + LabelLength(t[1..])
  }

  predicate AllPathChars(t: string)
  {
    forall k :: 0 <= k < |t| ==> IsPathChar(t[k])
  }

  /** The part after the protocol, recognised left to right: the word runs up to the
      first character outside `[\w-]`, which must be the dot; two letters follow, and
      the rest is path characters. (Letters past the second fit the path class too,
      so the upper bound of 63 never rejects anything.) */
  predicate HostMatches(t: string)
  {
    var n := LabelLength(t);
    n >= 1 && |t| >= n + 3 && t[n] == '.' && IsLetter(t[n + 1]) && IsLetter(t[n + 2])
    && AllPathChars(t[n + 3..])
  }

  /** `urlPattern.test(s)`. */
  predicate UrlPatternMatches(s: string)
  {
    HostMatches(s)
    || (StartsWith(s, "http://") && HostMatches(s[7..]))
    || (StartsWith(s, "https://") && HostMatches(s[8..]))
  }

  /** The regular expression's split of a host part: word `t[..dot]`, dot, letters
      `t[dot + 1..end]` (2 to 63 of them), path `t[end..]`. */
  predicate HostSplit(t: string, dot: int, end: int)
  {
    1 <= dot && dot + 3 <= end <= dot + 64 && end <= |t|
    && (forall k :: 0 <= k < dot ==> IsLabelChar(t[k]))
    && t[dot] == '.'
    && (forall k :: dot < k < end ==> IsLetter(t[k]))
    && (forall k :: end <= k < |t| ==> IsPathChar(t[k]))
  }

  /** Path characters from index `m` on, stated on the suffix or on the indices. */
  lemma PathSuffix(t: string, m: int)
    requires 0 <= m <= |t|
    ensures AllPathChars(t[m..]) <==> forall k :: m <= k < |t| ==> IsPathChar(t[k])
  {
    var u := t[m..];
    assert forall k :: 0 <= k < |u| ==> u[k] == t[m + k];
  }

  /** The recogniser accepts exactly the host parts the regular expression can split. */
  lemma HostMatchesIff(t: string)
    ensures HostMatches(t) <==> exists dot, end :: HostSplit(t, dot, end)
  {
    var n := LabelLength(t);
    if HostMatches(t) {
      PathSuffix(t, n + 3);
      assert HostSplit(t, n, n + 3);
    }
    if exists dot, end :: HostSplit(t, dot, end) {
      var dot, end :| HostSplit(t, dot, end);
      assert !IsLabelChar(t[dot]);
      assert n == dot;
      PathSuffix(t, n + 3);
    }
  }

  /** A word, a dot, two letters and a path make an accepted host part. */
  lemma HostFromParts(word: string, rest: string)
    requires word != [] && forall k :: 0 <= k < |word| ==> IsLabelChar(word[k])
    requires |rest| >= 2 && IsLetter(rest[0]) && IsLetter(rest[1]) && AllPathChars(rest[2..])
    ensures HostMatches(word + "." + rest)
  {
    var t := word + "." + rest;
    LabelPrefix(word, "." + rest);
    assert t == word + ("." + rest);
    assert t[|word| + 3..] == rest[2..];
  }

  lemma {:induction false} LabelPrefix(word: string, rest: string)
    requires forall k :: 0 <= k < |word| ==> IsLabelChar(word[k])
    requires rest != [] && !IsLabelChar(rest[0])
    ensures LabelLength(word + rest) == |word|
  {
    if word != [] {
      assert (word + rest)[1..] == word[1..] + rest;
      LabelPrefix(word[1..], rest);
    }
  }

  /** The `https://` protocol in front of an accepted host part is accepted. */
  lemma WithHttps(t: string)
    requires HostMatches(t)
    ensures UrlPatternMatches("https://" + t)
  {
    var s := "https://" + t;
    assert s[..8] == "https://";
    assert s[8..] == t;
  }

  /** An `@` anywhere is rejected: it is in no class of the pattern and in neither protocol. */
  lemma AtSignRejected(s: string, i: int)
    requires 0 <= i < |s| && s[i] == '@'
    ensures !UrlPatternMatches(s)
  {
    AtSignNotInHost(s, i);
    if |s| >= 7 && StartsWith(s, "http://") {
      assert i >= 7 by { assert s[..7] == "http://"; }
      AtSignNotInHost(s[7..], i - 7);
    }
    if |s| >= 8 && StartsWith(s, "https://") {
      assert i >= 8 by { assert s[..8] == "https://"; }
      AtSignNotInHost(s[8..], i - 8);
    }
  }

  lemma AtSignNotInHost(t: string, i: int)
    requires 0 <= i < |t| && t[i] == '@'
    ensures !HostMatches(t)
  {
    var n := LabelLength(t);
    if n + 3 <= i {
      PathSuffix(t, n + 3);
    }
  }

  /** An accepted host part holds exactly one dot, so a subdomain such as `www.` is rejected. */
  lemma SecondDotRejected(t: string, i: int, j: int)
    requires 0 <= i < j < |t| && t[i] == '.' && t[j] == '.'
    ensures !HostMatches(t)
  {
    var n := LabelLength(t);
    if n + 3 <= j {
      PathSuffix(t, n + 3);
    }
  }

  /** With the protocol, the checks apply to what follows it. */
  lemma SubdomainRejected(s: string, i: int, j: int)
    requires StartsWith(s, "https://")
    requires 8 <= i < j < |s| && s[i] == '.' && s[j] == '.'
    ensures !UrlPatternMatches(s)
  {
    assert s[..8] == "https://";
    SecondDotRejected(s[8..], i - 8, j - 8);
    SecondDotRejected(s, i, j);
    assert !StartsWith(s, "http://") by { assert s[4] == 's'; }
  }

  /** The TikTok placeholder is rejected for its `@`. */
  lemma TikTokPlaceholderRejected()
    ensures !UrlPatternMatches(TikTokPlaceholder)
  {
    AtSignRejected(TikTokPlaceholder, 19);
  }

  /** The placeholders of the three inputs (lines 516, 533, 550). */
  const InstagramPlaceholder := "https://" + ("instagram" + "." + "com/yourusername")
  const YouTubePlaceholder := "https://" + ("youtube" + "." + "com/c/yourchannel")
  const TikTokPlaceholder := "https://tiktok.com/@yourusername"

  /** The YouTube placeholder is accepted. */
  lemma YouTubePlaceholderAccepted()
    ensures UrlPatternMatches(YouTubePlaceholder)
  {
    var host := "youtube" + "." + "com/c/yourchannel";
    HostFromParts("youtube", "com/c/yourchannel");
    WithHttps(host);
  }

  /** The Instagram placeholder is accepted. */
  lemma InstagramPlaceholderAccepted()
    ensures UrlPatternMatches(InstagramPlaceholder)
  {
    var host := "instagram" + "." + "com/yourusername";
    HostFromParts("instagram", "com/yourusername");
    WithHttps(host);
  }

  // ---------------------------------------------------------------------------
  // validateUrls (lines 181-201)

  datatype PageError =
    | InvalidInstagram
    | InvalidYouTube
    | InvalidTikTok
    | LoadFailed
    | PhotoUploadFailed
    | SaveFailed

  /** A link passes when it is empty or matches the pattern. */
  predicate LinkAccepted(url: string)
  {
    url == "" || UrlPatternMatches(url)
  }

  /** The three checks in order Instagram, YouTube, TikTok; empty links are skipped and
      the first rejected link is reported. */
  function ValidateUrls(links: SocialLinks): (r: Option<PageError>)
    ensures r.None? <==> LinkAccepted(links.instagram) && LinkAccepted(links.youtube) && LinkAccepted(links.tiktok)
    ensures r == Some(InvalidInstagram) <==> !LinkAccepted(links.instagram)
    ensures r == Some(InvalidYouTube) <==> LinkAccepted(links.instagram) && !LinkAccepted(links.youtube)
    ensures r == Some(InvalidTikTok) <==>
              LinkAccepted(links.instagram) && LinkAccepted(links.youtube) && !LinkAccepted(links.tiktok)
  {
    if links.instagram != "" && !UrlPatternMatches(links.instagram) then Some(InvalidInstagram)
    else if links.youtube != "" && !UrlPatternMatches(links.youtube) then Some(InvalidYouTube)
    else if links.tiktok != "" && !UrlPatternMatches(links.tiktok) then Some(InvalidTikTok)
    else None
  }

  /** Entering the TikTok placeholder as it is shown blocks the save. */
  lemma TikTokPlaceholderBlocksSave(links: SocialLinks)
    requires LinkAccepted(links.instagram) && LinkAccepted(links.youtube)
    requires links.tiktok == TikTokPlaceholder
    ensures ValidateUrls(links) == Some(InvalidTikTok)
  {
    TikTokPlaceholderRejected();
  }

  // ---------------------------------------------------------------------------
  // Page state

  /** The page's own `Profile` row. */
  datatype PageProfile = PageProfile(
    id: string,
    username: string,
    profilePhotoUrl: Option<string>,
    userType: Option<UserType>,
    languages: seq<string>,
    socialLinks: Option<SocialLinks>)

  /** What `{ ...profile! }` spreads when no profile was loaded. */
  const NoProfile := PageProfile("", "", None, None, [], None)

  datatype CreatorRow = CreatorRow(id: string, creatorId: string, description: string)

  datatype BusinessRow = BusinessRow(id: string, businessId: string, businessName: string, description: string)

  /** The answer of a `.single()` lookup: the row, no row (`PGRST116`), or another error. */
  datatype Lookup<T> = Found(row: T) | NotFound | LookupFailed

  /** The writes the page sends to the store, in order. */
  datatype StoreWrite =
    | PhotoUpload
    | ProfileUpdate(id: string, username: string, languages: seq<string>, photoUrl: Option<string>, links: SocialLinks)
    | CreatorUpdate(creatorId: string, description: string)
    | BusinessUpdate(businessId: string, businessName: string, description: string)

  /** The extension update `handleSubmit` sends after the profile update: only for the
      profile's own type, and only when that extension row was loaded. */
  function ExtensionWrite(profile: Option<PageProfile>, creator: Option<CreatorRow>, business: Option<BusinessRow>,
                          userId: string, description: string, businessName: string): (w: Option<StoreWrite>)
    ensures w.Some? && w.value.CreatorUpdate? <==>
              profile.Some? && profile.value.userType == Some(Creator) && creator.Some?
    ensures w.Some? && w.value.BusinessUpdate? <==>
              profile.Some? && profile.value.userType == Some(Business) && business.Some?
    ensures w.Some? ==> w.value.CreatorUpdate? || w.value.BusinessUpdate?
  {
    if profile.Some? && profile.value.userType == Some(Creator) && creator.Some? then
      Some(CreatorUpdate(userId, description))
    else if profile.Some? && profile.value.userType == Some(Business) && business.Some? then
      Some(BusinessUpdate(userId, businessName, description))
    else None
  }

  /** `{ ...profile! }`: the loaded profile, or nothing to spread. */
  function GetOrNone(profile: Option<PageProfile>): PageProfile
  {
    if profile.Some? then profile.value else NoProfile
  }

  function OptionToSeq<T>(o: Option<T>): seq<T>
  {
    if o.Some? then [o.value] else []
  }

  /** The photo URL the save writes: the stored one, or the upload's result when a new
      photo was chosen (nothing when that upload failed). */
  function SavedPhotoUrl(profile: Option<PageProfile>, photoChosen: bool, uploaded: Option<string>): Option<string>
  {
    if photoChosen then uploaded
    else if profile.Some? then profile.value.profilePhotoUrl
    else None
  }

  /** The store calls of a save, in order: the photo upload when a photo was chosen, the
      profile update, then the extension update unless the profile update failed. */
  function SaveWrites(photoChosen: bool, profileUpdate: StoreWrite, profileFails: bool, ext: Option<StoreWrite>): seq<StoreWrite>
  {
    (if photoChosen then [PhotoUpload] else []) + [profileUpdate] + (if profileFails then [] else OptionToSeq(ext))
  }

  class ProfilePageState {
    var profile: Option<PageProfile>
    var creatorProfile: Option<CreatorRow>
    var businessProfile: Option<BusinessRow>
    var isLoading: bool
    var error: Option<PageError>
    var success: bool
    var hasTravelSchedule: bool
    var username: string
    var languages: seq<string>
    var newLanguage: string
    var links: SocialLinks
    var description: string
    var businessName: string
    var isSubmitting: bool
    var writes: seq<StoreWrite>

    constructor()
      ensures profile.None? && creatorProfile.None? && businessProfile.None? && isLoading
      ensures error.None? && !success && languages == [] && newLanguage == "" && writes == []
    {
      profile := None;
      creatorProfile := None;
      businessProfile := None;
      isLoading := true;
      error := None;
      success := false;
      hasTravelSchedule := false;
      username := "";
      languages := [];
      newLanguage := "";
      links := SocialLinks("", "", "");
      description := "";
      businessName := "";
      isSubmitting := false;
      writes := [];
    }

    /** `handleAddLanguage`: a non-empty language not yet listed is appended and the input
        cleared; otherwise nothing changes. */
    method AddLanguage()
      modifies this`languages, this`newLanguage
      ensures old(newLanguage) != "" && old(newLanguage) !in old(languages) ==>
                languages == old(languages) + [old(newLanguage)] && newLanguage == ""
      ensures old(newLanguage) == "" || old(newLanguage) in old(languages) ==>
                languages == old(languages) && newLanguage == old(newLanguage)
      ensures NoDuplicates(old(languages)) ==> NoDuplicates(languages)
    {
      if newLanguage != "" && newLanguage !in languages {
        languages := languages + [newLanguage];
        newLanguage := "";
      }
    }

    /** `handleRemoveLanguage`: every entry equal to `lang` goes, the rest keep their order. */
    method RemoveLanguage(lang: string)
      modifies this`languages
      ensures languages == Filter(Differs(lang), old(languages))
      ensures forall l :: l in languages <==> l in old(languages) && l != lang
      ensures IsSubsequence(languages, old(languages))
    {
      FilterIsSubsequence(Differs(lang), languages);
      languages := Filter(Differs(lang), languages);
    }

    /** `fetchProfileData` for a signed-in user. `fetched` is the `profiles` row (`None` on
        a store error); the lookups answer the extension query of the profile's type, and
        `travelCount` the schedule query (`None` on a store error). */
    method Load(fetched: Option<PageProfile>, creatorLookup: Lookup<CreatorRow>, travelCount: Option<nat>,
                businessLookup: Lookup<BusinessRow>)
      modifies this`isLoading, this`error, this`profile, this`username, this`languages, this`links
      modifies this`creatorProfile, this`description, this`hasTravelSchedule, this`businessProfile, this`businessName
      ensures !isLoading
      ensures fetched.None? ==> error == Some(LoadFailed) && profile == old(profile)
                                && username == old(username) && languages == old(languages) && links == old(links)
                                && creatorProfile == old(creatorProfile) && description == old(description)
                                && hasTravelSchedule == old(hasTravelSchedule)
                                && businessProfile == old(businessProfile) && businessName == old(businessName)
      ensures fetched.Some? ==> profile == fetched && username == fetched.value.username
                                && languages == fetched.value.languages
      ensures fetched.Some? && fetched.value.socialLinks.Some? ==> links == fetched.value.socialLinks.value
      ensures fetched.Some? && fetched.value.socialLinks.None? ==> links == old(links)
      ensures fetched.Some? ==>
                ExtensionLoaded(fetched.value.userType, creatorLookup, travelCount, businessLookup,
                                old(creatorProfile), old(description), old(error), old(hasTravelSchedule),
                                old(businessProfile), old(businessName))
    {
      isLoading := true;
      if fetched.None? {
        error := Some(LoadFailed);
      } else {
        LoadRow(fetched.value, creatorLookup, travelCount, businessLookup);
      }
      isLoading := false;
    }

    /** A fetched `profiles` row is taken over, then the extension of its type loaded. */
    method LoadRow(row: PageProfile, creatorLookup: Lookup<CreatorRow>, travelCount: Option<nat>,
                   businessLookup: Lookup<BusinessRow>)
      modifies this`error, this`profile, this`username, this`languages, this`links
      modifies this`creatorProfile, this`description, this`hasTravelSchedule, this`businessProfile, this`businessName
      ensures profile == Some(row) && username == row.username && languages == row.languages
      ensures links == if row.socialLinks.Some? then row.socialLinks.value else old(links)
      ensures ExtensionLoaded(row.userType, creatorLookup, travelCount, businessLookup,
                              old(creatorProfile), old(description), old(error), old(hasTravelSchedule),
                              old(businessProfile), old(businessName))
    {
      profile := Some(row);
      username := row.username;
      languages := row.languages;
      if row.socialLinks.Some? {
        links := row.socialLinks.value;
      }
      LoadExtension(row.userType, creatorLookup, travelCount, businessLookup);
    }

    /** The state after the branch on the profile's type: the creator branch leaves the
        business copies alone, the business branch the creator copies and the travel flag,
        and any other type loads nothing and reports nothing. */
    predicate ExtensionLoaded(userType: Option<UserType>, creatorLookup: Lookup<CreatorRow>, travelCount: Option<nat>,
                              businessLookup: Lookup<BusinessRow>,
                              creator0: Option<CreatorRow>, description0: string, error0: Option<PageError>,
                              hasTravel0: bool, business0: Option<BusinessRow>, name0: string)
      reads this`creatorProfile, this`description, this`error, this`hasTravelSchedule
      reads this`businessProfile, this`businessName
    {
      if userType == Some(Creator) then
        CreatorLoaded(creatorLookup, travelCount, creator0, description0, error0, hasTravel0)
        && businessProfile == business0 && businessName == name0
      else if userType == Some(Business) then
        BusinessLoaded(businessLookup, business0, name0, description0, error0)
        && creatorProfile == creator0 && hasTravelSchedule == hasTravel0
      else
        creatorProfile == creator0 && description == description0 && error == error0
        && hasTravelSchedule == hasTravel0 && businessProfile == business0 && businessName == name0
    }

    /** The extension query of the profile's type. */
    method LoadExtension(userType: Option<UserType>, creatorLookup: Lookup<CreatorRow>, travelCount: Option<nat>,
                         businessLookup: Lookup<BusinessRow>)
      modifies this`creatorProfile, this`description, this`error, this`hasTravelSchedule
      modifies this`businessProfile, this`businessName
      ensures ExtensionLoaded(userType, creatorLookup, travelCount, businessLookup,
                              old(creatorProfile), old(description), old(error), old(hasTravelSchedule),
                              old(businessProfile), old(businessName))
    {
      if userType == Some(Creator) {
        LoadCreator(creatorLookup, travelCount);
      } else if userType == Some(Business) {
        LoadBusiness(businessLookup);
      }
    }

    /** The state after the creator branch of the load: a found row is taken over, no row
        (`PGRST116`) is not an error, and the schedule count sets the travel flag. */
    predicate CreatorLoaded(lookup: Lookup<CreatorRow>, travelCount: Option<nat>,
                            creator0: Option<CreatorRow>, description0: string, error0: Option<PageError>,
                            hasTravel0: bool)
      reads this`creatorProfile, this`description, this`error, this`hasTravelSchedule
    {
      (lookup.Found? ==> creatorProfile == Some(lookup.row) && description == lookup.row.description)
      && (!lookup.Found? ==> creatorProfile == creator0 && description == description0)
      && (lookup.LookupFailed? || travelCount.None? ==> error == Some(LoadFailed) && hasTravelSchedule == hasTravel0)
      && (!lookup.LookupFailed? && travelCount.Some? ==> hasTravelSchedule == (travelCount.value > 0) && error == error0)
    }

    /** The state after the business branch of the load. */
    predicate BusinessLoaded(lookup: Lookup<BusinessRow>,
                             business0: Option<BusinessRow>, name0: string, description0: string, error0: Option<PageError>)
      reads this`businessProfile, this`businessName, this`description, this`error
    {
      (lookup.Found? ==> businessProfile == Some(lookup.row) && businessName == lookup.row.businessName
                         && description == lookup.row.description)
      && (!lookup.Found? ==> businessProfile == business0 && businessName == name0 && description == description0)
      && (lookup.LookupFailed? ==> error == Some(LoadFailed))
      && (!lookup.LookupFailed? ==> error == error0)
    }

    method LoadCreator(lookup: Lookup<CreatorRow>, travelCount: Option<nat>)
      modifies this`creatorProfile, this`description, this`error, this`hasTravelSchedule
      ensures CreatorLoaded(lookup, travelCount, old(creatorProfile), old(description), old(error),
                            old(hasTravelSchedule))
    {
      if lookup.LookupFailed? {
        error := Some(LoadFailed);
        return;
      }
      if lookup.Found? {
        creatorProfile := Some(lookup.row);
        description := lookup.row.description;
      }
      if travelCount.None? {
        error := Some(LoadFailed);
      } else {
        hasTravelSchedule := travelCount.value > 0;
      }
    }

    method LoadBusiness(lookup: Lookup<BusinessRow>)
      modifies this`businessProfile, this`businessName, this`description, this`error
      ensures BusinessLoaded(lookup, old(businessProfile), old(businessName), old(description), old(error))
    {
      if lookup.LookupFailed? {
        error := Some(LoadFailed);
      } else if lookup.Found? {
        businessProfile := Some(lookup.row);
        businessName := lookup.row.businessName;
        description := lookup.row.description;
      }
    }

    /** `handleSubmit` for user `userId`. `photoChosen` tells whether a new photo was
        picked and `uploaded` is its public URL (`None` when the upload fails); the two
        flags stand for errors of the two updates. A rejected link stops the save before
        any upload or write. */
    method Submit(userId: string, photoChosen: bool, uploaded: Option<string>, profileFails: bool, extensionFails: bool)
      modifies this`error, this`success, this`isSubmitting, this`writes
      modifies this`profile, this`creatorProfile, this`businessProfile
      ensures ValidateUrls(links).Some? ==>
                error == ValidateUrls(links) && !success && isSubmitting == old(isSubmitting)
                && writes == old(writes) && profile == old(profile)
                && creatorProfile == old(creatorProfile) && businessProfile == old(businessProfile)
      ensures ValidateUrls(links).None? ==>
                Saved(userId, photoChosen, uploaded, profileFails, extensionFails,
                      old(writes), old(Request(userId, photoChosen, uploaded, profileFails)),
                    old(profile), old(creatorProfile), old(businessProfile))
    {
      error := None;
      success := false;
      var check := ValidateUrls(links);
      if check.Some? {
        error := check;
        return;
      }
      Save(userId, photoChosen, uploaded, profileFails, extensionFails);
    }

    /** The store calls a save sends from the current state. */
    function Request(userId: string, photoChosen: bool, uploaded: Option<string>, profileFails: bool): seq<StoreWrite>
      reads this`profile, this`creatorProfile, this`businessProfile, this`username, this`languages, this`links
      reads this`description, this`businessName
    {
      var ext := ExtensionWrite(profile, creatorProfile, businessProfile, userId, description, businessName);
      SaveWrites(photoChosen, ProfileUpdate(userId, username, languages, SavedPhotoUrl(profile, photoChosen, uploaded), links),
                 profileFails, ext)
    }

    /** What a save past the link checks leaves: the writes sent in order, the flags and
        the message, and the local copies updated only on success. */
    predicate Saved(userId: string, photoChosen: bool, uploaded: Option<string>, profileFails: bool, extensionFails: bool,
                    writes0: seq<StoreWrite>, sent: seq<StoreWrite>,
                    profile0: Option<PageProfile>, creator0: Option<CreatorRow>, business0: Option<BusinessRow>)
      reads this`writes, this`success, this`error, this`isSubmitting, this`profile, this`creatorProfile
      reads this`businessProfile, this`username, this`languages, this`links, this`description, this`businessName
    {
      var photoUrl := SavedPhotoUrl(profile0, photoChosen, uploaded);
      var ext := ExtensionWrite(profile0, creator0, business0, userId, description, businessName);
      writes == writes0 + sent
      && (success <==> !profileFails && !(extensionFails && ext.Some?))
      && (!success ==> error == Some(SaveFailed))
      && (success ==> (error == Some(PhotoUploadFailed) <==> photoChosen && uploaded.None?))
      && (success && !(photoChosen && uploaded.None?) ==> error.None?)
      && !isSubmitting
      && LocalCopiesSaved(photoUrl, ext, profile0, creator0, business0)
    }

    /** The local copies after a save: the edited values taken over on success, the old
        copies kept otherwise. */
    predicate LocalCopiesSaved(photoUrl: Option<string>, ext: Option<StoreWrite>,
                               profile0: Option<PageProfile>, creator0: Option<CreatorRow>, business0: Option<BusinessRow>)
      reads this`success, this`profile, this`creatorProfile, this`businessProfile, this`username, this`languages
      reads this`links, this`description, this`businessName
    {
      (success ==> profile == Some(GetOrNone(profile0).(username := username, languages := languages,
                                                        profilePhotoUrl := photoUrl, socialLinks := Some(links))))
      && (!success ==> profile == profile0)
      && (if success && ext.Some? && ext.value.CreatorUpdate? && creator0.Some? then
            creatorProfile == Some(creator0.value.(description := description))
          else creatorProfile == creator0)
      && (if success && ext.Some? && ext.value.BusinessUpdate? && business0.Some? then
            businessProfile == Some(business0.value.(businessName := businessName, description := description))
          else businessProfile == business0)
    }

    method Save(userId: string, photoChosen: bool, uploaded: Option<string>, profileFails: bool, extensionFails: bool)
      modifies this`error, this`success, this`isSubmitting, this`writes
      modifies this`profile, this`creatorProfile, this`businessProfile
      ensures Saved(userId, photoChosen, uploaded, profileFails, extensionFails,
                    old(writes), old(Request(userId, photoChosen, uploaded, profileFails)),
                    old(profile), old(creatorProfile), old(businessProfile))
    {
      isSubmitting := true;
      var photoUrl := SavedPhotoUrl(profile, photoChosen, uploaded);
      var ext := ExtensionWrite(profile, creatorProfile, businessProfile, userId, description, businessName);
      writes := writes + SaveWrites(photoChosen, ProfileUpdate(userId, username, languages, photoUrl, links), profileFails, ext);
      success := !profileFails && !(extensionFails && ext.Some?);
      error := if !success then Some(SaveFailed) else if photoChosen && uploaded.None? then Some(PhotoUploadFailed) else None;
      UpdateLocalCopies(photoUrl, ext);
      isSubmitting := false;
    }

    /** The "Update local state" step. */
    method UpdateLocalCopies(photoUrl: Option<string>, ext: Option<StoreWrite>)
      modifies this`profile, this`creatorProfile, this`businessProfile
      requires ext.Some? && ext.value.CreatorUpdate? ==> creatorProfile.Some?
      requires ext.Some? && ext.value.BusinessUpdate? ==> businessProfile.Some?
      ensures LocalCopiesSaved(photoUrl, ext, old(profile), old(creatorProfile), old(businessProfile))
    {
      if success {
        profile := Some(GetOrNone(profile).(username := username, languages := languages, profilePhotoUrl := photoUrl,
                                            socialLinks := Some(links)));
        if ext.Some? && ext.value.CreatorUpdate? {
          creatorProfile := Some(creatorProfile.value.(description := description));
        } else if ext.Some? && ext.value.BusinessUpdate? {
          businessProfile := Some(businessProfile.value.(businessName := businessName, description := description));
        }
      }
    }
  }
}
