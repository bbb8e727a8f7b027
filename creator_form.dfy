/** The creator details form (components/CreatorForm.tsx): the ordered checks run before
    `onSubmit` and the length counter of the description. */
module CreatorForm {
  import opened Wrappers
  import opened Text

  /** The values `onSubmit` receives. */
  datatype CreatorFormValues = CreatorFormValues(description: string, country: string, city: string)

  datatype FormError =
    | DescriptionEmpty
    | DescriptionTooLong
    | CountryMissing
    | CityEmpty
    | SaveFailed

  const MaxLength: nat := 1000

  /** `maxLength * 0.9`: lengths are whole numbers, so "more than 900". */
  const WarningLength: nat := 900

  /** The values `onSubmit` may receive. */
  predicate Submittable(v: CreatorFormValues)
  {
    !IsBlank(v.description) && Utf16Length(v.description) <= MaxLength && v.country != "" && !IsBlank(v.city)
  }

  /** The checks of `handleSubmit`, first failure reported: blank description, too long a
      description, no country, blank city. */
  function Validate(v: CreatorFormValues): (r: Option<FormError>)
    ensures r.None? <==> Submittable(v)
    ensures r == Some(DescriptionEmpty) <==> IsBlank(v.description)
    ensures r == Some(DescriptionTooLong) <==> !IsBlank(v.description) && Utf16Length(v.description) > MaxLength
    ensures r == Some(CountryMissing) <==>
              !IsBlank(v.description) && Utf16Length(v.description) <= MaxLength && v.country == ""
    ensures r == Some(CityEmpty) <==>
              !IsBlank(v.description) && Utf16Length(v.description) <= MaxLength && v.country != "" && IsBlank(v.city)
  {
    if IsBlank(v.description) then Some(DescriptionEmpty)
    else if Utf16Length(v.description) > MaxLength then Some(DescriptionTooLong)
    else if v.country == "" then Some(CountryMissing)
    else if IsBlank(v.city) then Some(CityEmpty)
    else None
  }

  /** The component's state; `submitted` lists the values passed to `onSubmit`. */
  class CreatorFormState {
    var description: string
    var country: string
    var city: string
    var isSubmitting: bool
    var error: Option<FormError>
    var submitted: seq<CreatorFormValues>

    constructor(initialDescription: string, initialCountry: string, initialCity: string)
      ensures description == initialDescription && country == initialCountry && city == initialCity
      ensures !isSubmitting && error.None? && submitted == []
    {
      description, country, city := initialDescription, initialCountry, initialCity;
      isSubmitting := false;
      error := None;
      submitted := [];
    }

    function Values(): CreatorFormValues
      reads this`description, this`country, this`city
    {
      CreatorFormValues(description, country, city)
    }

    /** Whether the character counter is shown in red. */
    predicate ShowsLengthWarning()
      reads this`description
    {
      Utf16Length(description) > WarningLength
    }

    /** The red counter comes before the refusal: a description the submit refuses as too
        long already shows the warning, and a warned description within the maximum is not
        refused for its length. */
    lemma RefusedLengthIsWarned()
      ensures Validate(Values()) == Some(DescriptionTooLong) ==> ShowsLengthWarning()
      ensures ShowsLengthWarning() && Utf16Length(description) <= MaxLength ==> Validate(Values()) != Some(DescriptionTooLong)
    {
    }

    /** `handleSubmit`; `submitFails` stands for `onSubmit` throwing. The error is
        cleared first, and only values that pass every check are passed on. */
    method Submit(submitFails: bool)
      modifies this`error, this`isSubmitting, this`submitted
      ensures var check := Validate(Values());
              if check.Some? then error == check && submitted == old(submitted) && isSubmitting == old(isSubmitting)
              else !isSubmitting && submitted == old(submitted) + [Values()] && error == (if submitFails then Some(SaveFailed) else None)
      ensures forall i :: |old(submitted)| <= i < |submitted| ==> Submittable(submitted[i])
    {
      error := None;
      var check := Validate(CreatorFormValues(description, country, city));
      if check.Some? {
        error := check;
        return;
      }
      isSubmitting := true;
      submitted := submitted + [CreatorFormValues(description, country, city)];
      if submitFails {
        error := Some(SaveFailed);
      }
      isSubmitting := false;
    }
  }
}
