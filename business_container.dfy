/** The business directory (components/BusinessContainer.tsx): `business_profile` rows
    joined in memory with their owners' `profiles` rows, rendered only when the owner was
    found, and the owner's delete, which drops their rows from the store and the list. */
module BusinessContainer {
  import opened Wrappers
  import opened Seqs
  import opened Profiles

  /** A `business_profile` row. */
  datatype BusinessRow = BusinessRow(
    id: string,
    businessId: string,
    businessName: string,
    businessAddress: string,
    description: string,
    createdAt: string,
    updatedAt: string)

  /** A row of the list: the store row spread, plus the joined owner profile. */
  datatype BusinessProfile = BusinessProfile(row: BusinessRow, profile: Option<Profile>)

  /** `profilesData.map((profile) => profile.business_id)`. */
  function BusinessIds(rows: seq<BusinessRow>): (ids: seq<string>)
    ensures |ids| == |rows|
    ensures forall i :: 0 <= i < |rows| ==> ids[i] == rows[i].businessId
  {
    if rows == [] then [] else [rows[0].businessId] + BusinessIds(rows[1..])
  }

  /** The join: every row keeps its fields and position and carries the first profile
      whose id is its `business_id`, or none. */
  function JoinBusinesses(rows: seq<BusinessRow>, infos: seq<Profile>): (r: seq<BusinessProfile>)
    ensures |r| == |rows|
    ensures forall i :: 0 <= i < |r| ==> r[i].row == rows[i]
    ensures forall i :: 0 <= i < |r| && r[i].profile.Some? ==>
              r[i].profile.value in infos && r[i].profile.value.id == rows[i].businessId
    ensures forall i :: 0 <= i < |r| && r[i].profile.None? ==>
              forall k :: 0 <= k < |infos| ==> infos[k].id != rows[i].businessId
  {
    if rows == [] then []
    else [BusinessProfile(rows[0], FindProfile(infos, rows[0].businessId))] + JoinBusinesses(rows[1..], infos)
  }

  function RowNotOwnedBy(userId: string): BusinessRow -> bool
  {
    (row: BusinessRow) => row.businessId != userId
  }

  /** `(profile) => profile.business_id !== user.id`. */
  function NotOwnedBy(userId: string): BusinessProfile -> bool
  {
    (b: BusinessProfile) => b.row.businessId != userId
  }

  /** Dropping an owner's entries from the joined list gives the list a fresh load would
      build once the store has dropped that owner's rows. */
  lemma {:induction false} DeleteCommutesWithJoin(rows: seq<BusinessRow>, infos: seq<Profile>, userId: string)
    ensures Filter(NotOwnedBy(userId), JoinBusinesses(rows, infos))
            == JoinBusinesses(Filter(RowNotOwnedBy(userId), rows), infos)
  {
    if rows != [] {
      DeleteCommutesWithJoin(rows[1..], infos, userId);
      var joined := JoinBusinesses(rows, infos);
      assert joined[1..] == JoinBusinesses(rows[1..], infos);
    }
  }

  /** `(business) => business.profile` as the render's skip test. */
  function HasProfile(b: BusinessProfile): bool
  {
    b.profile.Some?
  }

  /** The cards drawn: the rows whose owner was found, in list order. */
  function RenderedBusinesses(list: seq<BusinessProfile>): (r: seq<BusinessProfile>)
    ensures forall b :: b in r <==> b in list && b.profile.Some?
    ensures IsSubsequence(r, list)
  {
    FilterIsSubsequence(HasProfile, list);
    Filter(HasProfile, list)
  }

  /** Whether a card shows the Edit and Delete buttons: only to its owner (`user?.id`). */
  predicate ShowsOwnerControls(b: BusinessProfile, user: Option<string>)
  {
    user.Some? && b.row.businessId == user.value
  }

  /** A signed-out visitor sees no owner controls on any card. */
  lemma NoControlsSignedOut(list: seq<BusinessProfile>)
    ensures forall b :: b in RenderedBusinesses(list) ==> !ShowsOwnerControls(b, None)
  {
  }

  /** After the owner's delete no remaining card shows them owner controls. */
  lemma NoControlsAfterDelete(list: seq<BusinessProfile>, userId: string)
    ensures forall b :: b in RenderedBusinesses(Filter(NotOwnedBy(userId), list)) ==> !ShowsOwnerControls(b, Some(userId))
  {
  }

  /** The `business_profile` table. */
  class BusinessTable {
    var rows: seq<BusinessRow>

    constructor(rows0: seq<BusinessRow>)
      ensures rows == rows0
    {
      rows := rows0;
    }
  }

  /** The component's state; `profileQueries` lists the id lists sent to `profiles`. */
  class BusinessContainerState {
    var businessProfiles: seq<BusinessProfile>
    var isLoading: bool
    var hasError: bool
    var profileQueries: seq<seq<string>>

    constructor()
      ensures businessProfiles == [] && isLoading && !hasError && profileQueries == []
    {
      businessProfiles := [];
      isLoading := true;
      hasError := false;
      profileQueries := [];
    }

    /** `fetchBusinessProfiles`: `rows` is the `business_profile` answer (newest first)
        and `infos` the answer of the `profiles` query for their owners; the two flags stand
        for the queries' errors. An empty answer sends no second query. */
    method FetchBusinessProfiles(rows: seq<BusinessRow>, rowsError: bool, infos: seq<Profile>, infosError: bool)
      modifies this`businessProfiles, this`isLoading, this`hasError, this`profileQueries
      ensures !isLoading
      ensures rowsError ==> hasError && businessProfiles == old(businessProfiles) && profileQueries == old(profileQueries)
      ensures !rowsError && rows == [] ==>
                businessProfiles == [] && profileQueries == old(profileQueries) && hasError == old(hasError)
      ensures !rowsError && rows != [] ==> profileQueries == old(profileQueries) + [BusinessIds(rows)]
      ensures !rowsError && rows != [] && infosError ==> hasError && businessProfiles == old(businessProfiles)
      ensures !rowsError && rows != [] && !infosError ==>
                businessProfiles == JoinBusinesses(rows, infos) && hasError == old(hasError)
    {
      isLoading := true;
      if rowsError {
        hasError := true;
        isLoading := false;
        return;
      }
      var enhanced: seq<BusinessProfile> := [];
      if |rows| > 0 {
        profileQueries := profileQueries + [BusinessIds(rows)];
        if infosError {
          hasError := true;
          isLoading := false;
          return;
        }
        enhanced := JoinBusinesses(rows, infos);
      }
      businessProfiles := enhanced;
      isLoading := false;
    }

    /** `handleDeleteBusinessProfile` for `user` (`None` when signed out); `deleteFails`
        stands for the store error. */
    method DeleteBusinessProfile(user: Option<string>, table: BusinessTable, deleteFails: bool)
      modifies this`businessProfiles, this`hasError, table
      ensures user.None? ==>
                businessProfiles == old(businessProfiles) && hasError == old(hasError) && table.rows == old(table.rows)
      ensures user.Some? && deleteFails ==>
                hasError && businessProfiles == old(businessProfiles) && table.rows == old(table.rows)
      ensures user.Some? && !deleteFails ==>
                table.rows == Filter(RowNotOwnedBy(user.value), old(table.rows))
                && businessProfiles == Filter(NotOwnedBy(user.value), old(businessProfiles))
                && hasError == old(hasError)
      ensures user.Some? && !deleteFails ==>
                (forall b :: b in businessProfiles <==> b in old(businessProfiles) && b.row.businessId != user.value)
                && IsSubsequence(businessProfiles, old(businessProfiles))
    {
      if user.None? {
        return;
      }
      if deleteFails {
        hasError := true;
        return;
      }
      table.rows := Filter(RowNotOwnedBy(user.value), table.rows);
      FilterIsSubsequence(NotOwnedBy(user.value), businessProfiles);
      businessProfiles := Filter(NotOwnedBy(user.value), businessProfiles);
    }
  }
}
