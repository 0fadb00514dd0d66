/**
 * The nickname form shown before joining: a guard that trims the input and
 * passes it on only when something is left.
 */
module PlayerNameForm {
  import opened Options
  import opened Text

  /** The input's `maxLength`. */
  const MaxLength: nat := 20

  /**
   * `handleSubmit`: the name handed to `onSubmitName` (called once), or
   * `None` when it is not called. It is called exactly when the input is
   * not blank, and then with the input minus its blank ends: a non-empty
   * slice of the input with no whitespace at either end.
   */
  function HandleSubmit(name: string): (submitted: Option<string>)
    ensures submitted.Some? <==> !IsBlank(name)
    ensures submitted.Some? ==> submitted.value != "" && IsTrimmed(submitted.value)
    ensures submitted.Some? ==> |submitted.value| <= |name|
    ensures submitted.Some? ==> exists i, j | 0 <= i <= j <= |name| ::
      submitted.value == name[i..j] && IsBlank(name[..i]) && IsBlank(name[j..])
  {
    TrimEmptyIffBlank(name);
    if Trim(name) != "" then Some(Trim(name)) else None
  }

  /** The submit button's `disabled`: exactly when the guard would reject. */
  function SubmitDisabled(name: string): (disabled: bool)
    ensures disabled <==> HandleSubmit(name).None?
  {
    Trim(name) == ""
  }

  /** A name typed within `maxLength` is submitted within it. */
  lemma SubmittedWithinMaxLength(name: string)
    requires |name| <= MaxLength
    ensures HandleSubmit(name).Some? ==> |HandleSubmit(name).value| <= MaxLength
  {
  }

  /** A name with no whitespace at either end is passed on unchanged. */
  lemma TrimmedNamePassesUnchanged(name: string)
    requires name != "" && IsTrimmed(name)
    ensures HandleSubmit(name) == Some(name)
  {
    TrimKeepsTrimmed(name);
  }

  /** For a non-blank name, submitting what was submitted gives it back: the guard is idempotent. */
  lemma SubmitIdempotent(name: string)
    requires !IsBlank(name)
    ensures HandleSubmit(HandleSubmit(name).value) == HandleSubmit(name)
  {
    TrimIdempotent(name);
  }

  /** Leading spaces of "  Alice " go first. */
  lemma LeadingSpacesDropped()
    ensures TrimStart("  Alice ") == "Alice "
  {
    var s := "  Alice ";
    assert IsWhitespace(s[0]) && IsWhitespace(s[1]) && !IsWhitespace(s[2]);
    assert TrimStart(s[2..]) == s[2..];
    assert TrimStart(s[1..]) == TrimStart(s[2..]);
  }

  /** Then the trailing one. */
  lemma TrailingSpaceDropped()
    ensures TrimEnd("Alice ") == "Alice"
  {
    var t := "Alice ";
    assert IsWhitespace(t[5]) && !IsWhitespace(t[4]);
    assert TrimEnd(t[..5]) == t[..5];
  }

  /** Surrounding spaces are dropped: "  Alice " is submitted as "Alice". */
  lemma SubmitDropsSurroundingSpaces()
    ensures HandleSubmit("  Alice ") == Some("Alice")
  {
    LeadingSpacesDropped();
    TrailingSpaceDropped();
    assert Trim("  Alice ") == "Alice";
  }

  /** A name of spaces only is not submitted. */
  lemma SpacesAreNotSubmitted()
    ensures HandleSubmit("   ") == None
  {
    assert IsBlank("   ");
  }
}
