/**
 * The state and handlers of frontend/src/components/PortfolioForm.tsx,
 * with `String.prototype.trim` written out over JavaScript's white space and
 * line terminator characters.
 */
module PortfolioFormComponent {
  import opened Wrappers

  /** The characters `trim` removes: ECMAScript WhiteSpace (tab, vertical
      tab, form feed, space, no-break space, the byte order mark and the
      Unicode space separators) and LineTerminator (LF, CR, U+2028, U+2029). */
  predicate IsWhitespace(c: char)
  {
    || c == '\t' || c == '\n' || c == '\U{B}' || c == '\U{C}' || c == '\r' || c == ' '
    || c == '\U{A0}' || c == '\U{1680}' || ('\U{2000}' <= c <= '\U{200A}')
    || c == '\U{2028}' || c == '\U{2029}' || c == '\U{202F}' || c == '\U{205F}'
    || c == '\U{3000}' || c == '\U{FEFF}'
  }

  /** Every character of `s` is white space. */
  predicate AllWhitespace(s: string)
  {
    forall k :: 0 <= k < |s| ==> IsWhitespace(s[k])
  }

  /** Length of the leading run of white space. */
  function LeadingWhitespace(s: string): (n: nat)
    ensures n <= |s|
    ensures AllWhitespace(s[..n])
    ensures n < |s| ==> !IsWhitespace(s[n])
  {
    if s == [] || !IsWhitespace(s[0]) then 0
    else
      var n := 1 + LeadingWhitespace(s[1..]);
      assert s[..n] == [s[0]] + s[1..][..n - 1];
      n
  }

  /** Length of the trailing run of white space. */
  function TrailingWhitespace(s: string): (n: nat)
    ensures n <= |s|
    ensures AllWhitespace(s[|s| - n..])
    ensures n < |s| ==> !IsWhitespace(s[|s| - 1 - n])
  {
    if s == [] || !IsWhitespace(s[|s| - 1]) then 0
    else
      var front := s[..|s| - 1];
      var n := 1 + TrailingWhitespace(front);
      assert s[|s| - n..] == front[|front| - (n - 1)..] + [s[|s| - 1]];
      n
  }

  /** `s` is `pre + r + post` with `pre` and `post` all white space. */
  predicate TrimmedAt(s: string, r: string, i: nat)
  {
    i + |r| <= |s| && s[i..i + |r|] == r && AllWhitespace(s[..i]) && AllWhitespace(s[i + |r|..])
  }

  /** `String.prototype.trim`: the middle of `s` once the white space at both
      ends is gone. */
  function Trim(s: string): (r: string)
    ensures exists i :: 0 <= i <= |s| && TrimmedAt(s, r, i)
    ensures r == [] || (!IsWhitespace(r[0]) && !IsWhitespace(r[|r| - 1]))
    ensures r == [] <==> AllWhitespace(s)
  {
    var lead := LeadingWhitespace(s);
    if lead == |s| then
      assert TrimmedAt(s, [], |s|);
      []
    else
      var trail := TrailingWhitespace(s);
      assert !IsWhitespace(s[lead]);
      assert trail < |s| - lead;
      var r := s[lead..|s| - trail];
      assert TrimmedAt(s, r, lead);
      r
  }

  /** Trimming twice is trimming once. */
  lemma TrimIdempotent(s: string)
    ensures Trim(Trim(s)) == Trim(s)
  {
    var r := Trim(s);
    if r != [] {
      assert LeadingWhitespace(r) == 0;
      assert TrailingWhitespace(r) == 0;
    }
  }

  /** A name consisting of spaces and tabs trims to nothing; one with text
      keeps that text. */
  lemma TrimExamples()
    ensures Trim("  \t ") == ""
    ensures Trim(" Long term ") == "Long term"
  {
    assert AllWhitespace("  \t ");
    var s := " Long term ";
    assert LeadingWhitespace(s) == 1 by {
      assert LeadingWhitespace(s[1..]) == 0;
    }
    assert TrailingWhitespace(s) == 1 by {
      assert TrailingWhitespace(s[..|s| - 1]) == 0;
    }
    assert s[1..|s| - 1] == "Long term";
  }

  /** The record handed to `onSubmit`, and the `initialValues` prop. */
  datatype PortfolioInput = PortfolioInput(naziv: string, strategija: string)

  class PortfolioForm {
    const initialValues: Option<PortfolioInput>
    var naziv: string
    var strategija: string

    /** The first render: the fields start from the edited portfolio, or
        empty. */
    constructor(initialValues: Option<PortfolioInput>)
      ensures this.initialValues == initialValues
      ensures naziv == (if initialValues.Some? then initialValues.value.naziv else "")
      ensures strategija == (if initialValues.Some? then initialValues.value.strategija else "")
    {
      this.initialValues := initialValues;
      naziv := if initialValues.Some? then initialValues.value.naziv else "";
      strategija := if initialValues.Some? then initialValues.value.strategija else "";
    }

    /** The name input. */
    method SetNaziv(v: string)
      modifies this`naziv
      ensures naziv == v
    {
      naziv := v;
    }

    /** The strategy input. */
    method SetStrategija(v: string)
      modifies this`strategija
      ensures strategija == v
    {
      strategija := v;
    }

    /** `handleSubmit`: submits both fields trimmed, and only when the name
        has a character other than white space. */
    function HandleSubmit(): (r: Option<PortfolioInput>)
      reads this
      ensures r.Some? <==> !AllWhitespace(naziv)
      ensures r.Some? ==> r.value.naziv != [] && !IsWhitespace(r.value.naziv[0])
      ensures r.Some? ==> r.value.naziv == Trim(naziv) && r.value.strategija == Trim(strategija)
    {
      if Trim(naziv) != "" then Some(PortfolioInput(Trim(naziv), Trim(strategija))) else None
    }

    /** The submit button's `disabled`. */
    function SubmitDisabled(isLoading: bool): (disabled: bool)
      reads this
      ensures disabled <==> isLoading || AllWhitespace(naziv)
    {
      isLoading || Trim(naziv) == ""
    }

    /** The submit button's caption. */
    function ButtonLabel(isLoading: bool): (caption: string)
      reads this
      ensures isLoading && initialValues.Some? <==> caption == "Saving..."
      ensures isLoading && initialValues.None? <==> caption == "Creating..."
      ensures !isLoading && initialValues.Some? <==> caption == "Save Changes"
      ensures !isLoading && initialValues.None? <==> caption == "Create Portfolio"
    {
      if isLoading then (if initialValues.Some? then "Saving..." else "Creating...")
      else if initialValues.Some? then "Save Changes" else "Create Portfolio"
    }
  }

  /** The button is enabled exactly when not loading and a submit would go
      through, and what goes through is already trimmed. */
  lemma EnabledIffSubmits(f: PortfolioForm)
    ensures !f.SubmitDisabled(false) <==> f.HandleSubmit().Some?
    ensures f.HandleSubmit().Some? ==>
      Trim(f.HandleSubmit().value.naziv) == f.HandleSubmit().value.naziv
      && Trim(f.HandleSubmit().value.strategija) == f.HandleSubmit().value.strategija
  {
    TrimIdempotent(f.naziv);
    TrimIdempotent(f.strategija);
  }
}
