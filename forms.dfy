/**
 * The access-request form: its fields, which of them are required, the six
 * planned-use tags, and the planned-use validator with its two messages.
 *
 * Library validators are modelled by what they decide, not by their wording:
 * a required field fails when it is empty, and a planned-use value that is not
 * one of the six tags is reported by the multi-select field's own choice check.
 */
module Forms {
  import opened Wrappers

  /** The planned-use choices as (tag, label) pairs, in display order. */
  const UseChoices: seq<(string, string)> := [
    ("research", "Analyze the dataset, identify trends, build new models."),
    ("teaching", "Prepare lessons, create assignments, teach data analysis skills."),
    ("software", "Build tools, create applications, integrate data sources."),
    ("reporting", "Checking on external use of data."),
    ("notsure", "I\U{2019}m not sure yet."),
    ("other", "Other (please specify below).")
  ]

  /**
   * The tags a planned-use selection may contain: the keys of `UseChoices`,
   * written out as a literal so that membership in them unfolds cheaply;
   * `UseTagsAreChoiceKeys` proves the two lists agree.
   */
  const UseTags: seq<string> := ["research", "teaching", "software", "reporting", "notsure", "other"]

  /** The tag that asks for an accompanying free-text description. */
  const OtherTag: string := "other"

  const AtLeastOneMessage: string := "At least one option must be selected."
  const SpecifyOtherMessage: string := "Please specify your other use."

  /** The fields of the form, in declaration order. */
  datatype Field = Email | Name | Organisation | Contact | PrimaryUse | OtherUse | AdditionalInfo

  datatype FieldError =
    | Required(field: Field)                        // a required field was left empty
    | NotAChoice(field: Field, values: seq<string>) // selected values outside the choices
    | Rejected(field: Field, message: string)       // a validator stopped the field with a message

  /** What a submitted form carries. */
  datatype Submission = Submission(
    email: string,
    name: string,
    organisation: string,
    contact: bool,
    primaryUse: seq<string>,
    otherUse: string,
    additionalInfo: string)

  /** The tags are the keys of the six choices, in the same order, and include the other tag. */
  lemma UseTagsAreChoiceKeys()
    ensures |UseTags| == |UseChoices| == 6
    ensures forall i :: 0 <= i < |UseChoices| ==> UseTags[i] == UseChoices[i].0
    ensures OtherTag in UseTags
  {
  }

  /**
   * The at-least-one validator of the planned-use field: the message it
   * stops the field with, or `None` when the selection passes.
   */
  function AtLeastOne(selected: seq<string>, otherUse: string): (r: Option<string>)
    ensures r == Some(AtLeastOneMessage) <==> |selected| == 0
    ensures r == Some(SpecifyOtherMessage) <==> |selected| > 0 && OtherTag in selected && otherUse == ""
    ensures r.None? <==> |selected| > 0 && (OtherTag in selected ==> otherUse != "")
  {
    if |selected| == 0 then Some(AtLeastOneMessage)
    else if OtherTag in selected && otherUse == "" then Some(SpecifyOtherMessage)
    else None
  }

  /** The emptiness check comes first: an empty selection never asks for the other use. */
  lemma EmptySelectionNeverAsksForOther(otherUse: string)
    ensures AtLeastOne([], otherUse) == Some(AtLeastOneMessage)
    ensures AtLeastOne([], otherUse) != Some(SpecifyOtherMessage)
  {
  }

  /** Without the other tag, a non-empty selection passes whatever the other-use text is. */
  lemma OtherUseIgnoredWithoutOther(selected: seq<string>, otherUse: string, otherUse': string)
    requires |selected| > 0 && OtherTag !in selected
    ensures AtLeastOne(selected, otherUse) == AtLeastOne(selected, otherUse') == None
  {
  }

  /** The other-use test is equality with the empty string, so whitespace-only text passes. */
  lemma BlankOtherUsePasses(selected: seq<string>, t: string)
    requires OtherTag in selected
    requires |t| > 0 && forall i :: 0 <= i < |t| ==> t[i] in {' ', '\t', '\n', '\r'}
    ensures AtLeastOne(selected, t) == None
  {
  }

  /** The selected values that are not among the tags, in the order given. */
  function NotChosen(selected: seq<string>): (r: seq<string>)
    ensures forall v :: v in r <==> v in selected && v !in UseTags
    ensures r == [] <==> forall v :: v in selected ==> v in UseTags
    ensures |r| <= |selected|
  {
    if |selected| == 0 then []
    else
      var rest := NotChosen(selected[1..]);
      assert forall v :: v in selected <==> v == selected[0] || v in selected[1..];
      if selected[0] in UseTags then rest else [selected[0]] + rest
  }

  /** A field whose only validator is the required-data check. */
  function RequiredCheck(f: Field, value: string): seq<FieldError>
  {
    if value == "" then [Required(f)] else []
  }

  /** The planned-use field: the choice check first, then the at-least-one validator. */
  function PrimaryUseErrors(selected: seq<string>, otherUse: string): seq<FieldError>
  {
    var bad := NotChosen(selected);
    (if bad != [] then [NotAChoice(PrimaryUse, bad)] else [])
    + (match AtLeastOne(selected, otherUse)
       case Some(m) => [Rejected(PrimaryUse, m)]
       case None => [])
  }

  /**
   * Every field's errors in declaration order. Contact, other use and
   * additional information carry no validator and so contribute nothing.
   */
  function Validate(s: Submission): (errs: seq<FieldError>)
    ensures forall e :: e in errs ==> e.field in {Email, Name, Organisation, PrimaryUse}
  {
    RequiredCheck(Email, s.email)
    + RequiredCheck(Name, s.name)
    + RequiredCheck(Organisation, s.organisation)
    + PrimaryUseErrors(s.primaryUse, s.otherUse)
  }

  /** A submission the form accepts, stated field by field. */
  ghost predicate Acceptable(s: Submission)
  {
    && s.email != ""
    && s.name != ""
    && s.organisation != ""
    && |s.primaryUse| > 0
    && (forall v :: v in s.primaryUse ==> v in UseTags)
    && (OtherTag in s.primaryUse ==> s.otherUse != "")
  }

  /** The form validates exactly when the submission is acceptable. */
  lemma ValidateIffAcceptable(s: Submission)
    ensures Validate(s) == [] ==> Acceptable(s)
    ensures Acceptable(s) ==> Validate(s) == []
  {
  }

  /**
   * A required field is reported missing exactly when it is empty, and each
   * planned-use message appears exactly when its validator stops the field.
   */
  lemma EmptyRequiredFieldReported(s: Submission)
    ensures Required(Email) in Validate(s) <==> s.email == ""
    ensures Required(Name) in Validate(s) <==> s.name == ""
    ensures Required(Organisation) in Validate(s) <==> s.organisation == ""
    ensures Rejected(PrimaryUse, AtLeastOneMessage) in Validate(s) <==> |s.primaryUse| == 0
    ensures Rejected(PrimaryUse, SpecifyOtherMessage) in Validate(s)
        <==> |s.primaryUse| > 0 && OtherTag in s.primaryUse && s.otherUse == ""
  {
    var required := RequiredCheck(Email, s.email) + RequiredCheck(Name, s.name)
                    + RequiredCheck(Organisation, s.organisation);
    var use := PrimaryUseErrors(s.primaryUse, s.otherUse);
    assert Validate(s) == required + use;
    assert forall e :: e in use ==> !e.Required?;
    assert forall e :: e in required ==> e.Required?;
    forall m | true
      ensures Rejected(PrimaryUse, m) in use <==> AtLeastOne(s.primaryUse, s.otherUse) == Some(m)
    {
      var bad := NotChosen(s.primaryUse);
      var head := if bad != [] then [NotAChoice(PrimaryUse, bad)] else [];
      assert Rejected(PrimaryUse, m) !in head;
    }
  }

  /** Selecting the other tag with empty text is rejected, however good the other fields are. */
  lemma OtherWithoutTextRejected(s: Submission)
    requires OtherTag in s.primaryUse && s.otherUse == ""
    ensures Rejected(PrimaryUse, SpecifyOtherMessage) in Validate(s)
    ensures Validate(s) != []
  {
  }

  /** The fields without validators never change the verdict. */
  lemma UnvalidatedFieldsIgnored(s: Submission, contact: bool, info: string)
    ensures Validate(s.(contact := contact, additionalInfo := info)) == Validate(s)
  {
  }
}
