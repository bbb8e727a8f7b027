/** The base `profiles` row shared by creators and businesses (types.ts), and the
    in-memory lookup `profilesInfo.find((p) => p.id === ownerId)` that both directory
    containers use to join an extension row with its owner. */
module Profiles {
  import opened Wrappers

  datatype UserType = Creator | Business

  /** Social links; an absent link is the empty string. */
  datatype SocialLinks = SocialLinks(instagram: string, youtube: string, tiktok: string)

  /** A `profiles` row. Optional text columns are "" when absent and a missing
      `languages` array is the empty list (the components only test them for truthiness
      or iterate over them). */
  datatype Profile = Profile(
    id: string,
    username: string,
    userType: Option<UserType>,
    location: string,
    languages: seq<string>,
    socialLinks: SocialLinks,
    profilePhotoUrl: string,
    isProfileComplete: bool)

  /** `infos.find((p) => p.id === id)`: the first row with that id, or nothing. */
  function FindProfile(infos: seq<Profile>, id: string): (r: Option<Profile>)
    ensures r.Some? ==> r.value in infos && r.value.id == id
    ensures r.None? <==> forall k :: 0 <= k < |infos| ==> infos[k].id != id
    ensures r.Some? ==> exists k :: 0 <= k < |infos| && infos[k] == r.value
                                    && forall j :: 0 <= j < k ==> infos[j].id != id
  {
    if infos == [] then None
    else if infos[0].id == id then Some(infos[0])
    else
      var rest := FindProfile(infos[1..], id);
      assert rest.Some? ==> exists k :: 0 <= k < |infos| && infos[k] == rest.value
                                        && forall j :: 0 <= j < k ==> infos[j].id != id by {
        if rest.Some? {
          var k :| 0 <= k < |infos[1..]| && infos[1..][k] == rest.value
                   && forall j :: 0 <= j < k ==> infos[1..][j].id != id;
          assert infos[k + 1] == rest.value;
          forall j | 0 <= j < k + 1 ensures infos[j].id != id {
            if j > 0 { assert infos[j] == infos[1..][j - 1]; }
          }
        }
      }
      rest
  }
}
