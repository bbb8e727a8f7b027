/** The business details form (components/BusinessForm.tsx): field edits, the ordered
    checks run before `onSubmit`, and `insertFormat`, which splices markdown markers
    around the selected part of the description. */
module BusinessForm {
  import opened Wrappers
  import opened Text

  /** The values the form edits and submits. */
  datatype BusinessFormValues = BusinessFormValues(
    description: string,
    businessName: string,
    businessAddress: string)

  /** The `name` attributes of the form's inputs. */
  datatype Field = Description | BusinessName | BusinessAddress

  datatype FormError =
    | NameEmpty
    | AddressEmpty
    | DescriptionEmpty
    | DescriptionTooLong
    | SaveFailed

  const MaxDescriptionLength: nat := 1000

  /** `maxDescriptionLength * 0.9`, the length past which the counter turns red. */
  const WarningLength: nat := 900

  /** `{ ...values, [name]: value }`. */
  function WithField(values: BusinessFormValues, name: Field, value: string): (r: BusinessFormValues)
    ensures name == Description ==> r.description == value
    ensures name == BusinessName ==> r.businessName == value
    ensures name == BusinessAddress ==> r.businessAddress == value
    ensures name != Description ==> r.description == values.description
    ensures name != BusinessName ==> r.businessName == values.businessName
    ensures name != BusinessAddress ==> r.businessAddress == values.businessAddress
  {
    match name
    case Description => values.(description := value)
    case BusinessName => values.(businessName := value)
    case BusinessAddress => values.(businessAddress := value)
  }

  /** The values `onSubmit` may receive. */
  predicate Submittable(v: BusinessFormValues)
  {
    !IsBlank(v.businessName) && !IsBlank(v.businessAddress) && !IsBlank(v.description)
    && Utf16Length(v.description) <= MaxDescriptionLength
  }

  /** The checks of `handleSubmit`, first failure reported: name, address, description,
      description length. */
  function Validate(v: BusinessFormValues): (r: Option<FormError>)
    ensures r.None? <==> Submittable(v)
    ensures r == Some(NameEmpty) <==> IsBlank(v.businessName)
    ensures r == Some(AddressEmpty) <==> !IsBlank(v.businessName) && IsBlank(v.businessAddress)
    ensures r == Some(DescriptionEmpty) <==>
              !IsBlank(v.businessName) && !IsBlank(v.businessAddress) && IsBlank(v.description)
    ensures r == Some(DescriptionTooLong) <==>
              !IsBlank(v.businessName) && !IsBlank(v.businessAddress) && !IsBlank(v.description)
              && Utf16Length(v.description) > MaxDescriptionLength
  {
    if IsBlank(v.businessName) then Some(NameEmpty)
    else if IsBlank(v.businessAddress) then Some(AddressEmpty)
    else if IsBlank(v.description) then Some(DescriptionEmpty)
    else if Utf16Length(v.description) > MaxDescriptionLength then Some(DescriptionTooLong)
    else None
  }

  /** The toolbar's formats; `Unknown` is any other name (the `default` branch). */
  datatype Format = Bold | Italic | Heading | List | Unknown

  /** `line => `- ${line}``, over every line. */
  function PrefixAll(lines: seq<string>): (r: seq<string>)
    ensures |r| == |lines|
    ensures forall i :: 0 <= i < |r| ==> r[i] == "- " + lines[i]
  {
    if lines == [] then [] else ["- " + lines[0]] + PrefixAll(lines[1..])
  }

  /** `selectedText.split('\n').map((line) => `- ${line}`).join('\n')`. */
  function Bullets(selected: string): string
  {
    Join(PrefixAll(Split(selected, '\n')), '\n')
  }

  /** What replaces the selection; `Unknown` inserts nothing of its own. */
  function Marked(selected: string, format: Format): string
  {
    match format
    case Bold => "**" + selected + "**"
    case Italic => "_" + selected + "_"
    case Heading => "## " + selected
    case List => Bullets(selected)
    case Unknown => selected
  }

  /** `insertFormat(format)` on a description whose selection runs from `start` to `end`. */
  function InsertFormat(description: string, start: int, end: int, format: Format): (r: string)
    ensures format == Unknown ==> r == description
  {
    if format == Unknown then description
    else
      Substring(description, 0, start) + Marked(Substring(description, start, end), format)
      + Substring(description, end, |description|)
  }

  /** The end of the selection restored after formatting. */
  function RestoredEnd(description: string, start: int, end: int, format: Format): int
  {
    end + (|InsertFormat(description, start, end, format)| - |description|)
  }

  /** How much a format lengthens its selection: the markers' length, two per line for a list. */
  function Growth(selected: string, format: Format): nat
  {
    match format
    case Bold => 4
    case Italic => 2
    case Heading => 3
    case List => 2 * (Count(selected, '\n') + 1)
    case Unknown => 0
  }

  /** A line prefix adds two characters per line. */
  lemma {:induction false} PrefixAllLength(lines: seq<string>)
    ensures TotalLength(PrefixAll(lines)) == TotalLength(lines) + 2 * |lines|
  {
    if lines != [] {
      PrefixAllLength(lines[1..]);
      assert PrefixAll(lines)[1..] == PrefixAll(lines[1..]);
    }
  }

  /** A list adds `- ` in front of every line of the selection. */
  lemma BulletsLength(selected: string)
    ensures |Bullets(selected)| == |selected| + 2 * (Count(selected, '\n') + 1)
  {
    var lines := Split(selected, '\n');
    JoinLength(lines, '\n');
    JoinLength(PrefixAll(lines), '\n');
    PrefixAllLength(lines);
    JoinSplit(selected, '\n');
    SplitCount(selected, '\n');
  }

  /** A list keeps the selection's line count and prefixes each line with `- `. */
  lemma BulletsLines(selected: string)
    ensures Split(Bullets(selected), '\n') == PrefixAll(Split(selected, '\n'))
  {
    var prefixed := PrefixAll(Split(selected, '\n'));
    forall i | 0 <= i < |prefixed| ensures '\n' !in prefixed[i] {
      assert prefixed[i] == "- " + Split(selected, '\n')[i];
    }
    SplitJoin(prefixed, '\n');
  }

  /** Every format lengthens its selection by its `Growth`. */
  lemma MarkedLength(selected: string, format: Format)
    ensures |Marked(selected, format)| == |selected| + Growth(selected, format)
  {
    if format == List {
      BulletsLength(selected);
    }
  }

  /** With a selection inside the text, the text before `start` and after `end` is kept
      verbatim and the selection is replaced by its marked form. */
  lemma FormatKeepsOutside(description: string, start: int, end: int, format: Format)
    requires 0 <= start <= end <= |description|
    ensures var r := InsertFormat(description, start, end, format);
            var marked := Marked(description[start..end], format);
            r == description[..start] + marked + description[end..]
            && |r| == |description| + Growth(description[start..end], format)
  {
    MarkedLength(description[start..end], format);
    if format == Unknown {
      assert description == description[..start] + description[start..end] + description[end..];
    }
  }

  /** The restored selection covers exactly the marked selection. */
  lemma RestoredSelectionIsMarked(description: string, start: int, end: int, format: Format)
    requires 0 <= start <= end <= |description|
    ensures var r := InsertFormat(description, start, end, format);
            var newEnd := RestoredEnd(description, start, end, format);
            start <= newEnd <= |r| && r[start..newEnd] == Marked(description[start..end], format)
  {
    FormatKeepsOutside(description, start, end, format);
    MarkedLength(description[start..end], format);
    var r := InsertFormat(description, start, end, format);
    var marked := Marked(description[start..end], format);
    assert r[start..start + |marked|] == marked;
  }

  /** Bold wraps the selection in `**`, four characters longer in all. */
  lemma BoldAddsFour(description: string, start: int, end: int)
    requires 0 <= start <= end <= |description|
    ensures InsertFormat(description, start, end, Bold) ==
              description[..start] + "**" + description[start..end] + "**" + description[end..]
    ensures RestoredEnd(description, start, end, Bold) == end + 4
  {
    FormatKeepsOutside(description, start, end, Bold);
  }

  /** The component's state; `submitted` lists the values passed to `onSubmit`. */
  class BusinessFormState {
    var values: BusinessFormValues
    var isSubmitting: bool
    var error: Option<FormError>
    var submitted: seq<BusinessFormValues>
    var selectionStart: int
    var selectionEnd: int

    constructor(initialValues: BusinessFormValues)
      ensures values == initialValues && !isSubmitting && error.None? && submitted == []
    {
      values := initialValues;
      isSubmitting := false;
      error := None;
      submitted := [];
      selectionStart := 0;
      selectionEnd := 0;
    }

    /** Whether the character counter is shown in red. */
    predicate ShowsLengthWarning()
      reads this
    {
      Utf16Length(values.description) > WarningLength
    }

    /** `handleChange`: only the named field changes. */
    method Change(name: Field, value: string)
      modifies this`values
      ensures values == WithField(old(values), name, value)
    {
      values := WithField(values, name, value);
    }

    /** `handleSubmit`; `submitFails` stands for `onSubmit` throwing. */
    method Submit(submitFails: bool)
      modifies this`error, this`isSubmitting, this`submitted
      ensures var check := Validate(values);
              if check.Some? then error == check && submitted == old(submitted) && isSubmitting == old(isSubmitting)
              else !isSubmitting && submitted == old(submitted) + [values]
                   && error == (if submitFails then Some(SaveFailed) else None)
      ensures forall i :: |old(submitted)| <= i < |submitted| ==> Submittable(submitted[i])
    {
      error := None;
      var check := Validate(values);
      if check.Some? {
        error := check;
        return;
      }
      isSubmitting := true;
      submitted := submitted + [values];
      if submitFails {
        error := Some(SaveFailed);
      }
      isSubmitting := false;
    }

    /** `insertFormat` with the textarea's selection from `start` to `end`: the new
        description and the restored selection. */
    method ApplyFormat(format: Format, start: int, end: int)
      modifies this`values, this`selectionStart, this`selectionEnd
      ensures values == old(values).(description := InsertFormat(old(values).description, start, end, format))
      ensures selectionStart == start
      ensures selectionEnd == RestoredEnd(old(values).description, start, end, format)
    {
      var newText := InsertFormat(values.description, start, end, format);
      selectionStart := start;
      selectionEnd := end + (|newText| - |values.description|);
      values := values.(description := newText);
    }
  }
}
