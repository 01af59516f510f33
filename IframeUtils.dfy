/** The iframe attribute form of the rich-text editor
    (src/components/RichTextEditor/Iframe/IframeUtils.js): stripping `<figure>` wrappers from
    pasted HTML, the per-field validation rules, and whole-form validation. Attribute values
    are strings, as the attribute parser yields them. */
module IframeUtils {
  import Js

  // ----------------------------------------------------------------------------------------
  // stripWrappingFigureTags

  /** The case folding of a regular expression with the `i` flag and without `u`: only ASCII
      letters are folded, since no other character folds to an ASCII one. */
  function FoldCase(c: char): char {
    if 'A' <= c <= 'Z' then (c as int + 32) as char else c
  }

  /** `s` starts with `pattern`, ignoring case. */
  predicate StartsWithIgnoringCase(s: string, pattern: string) {
    |pattern| <= |s| && forall i :: 0 <= i < |pattern| ==> FoldCase(s[i]) == FoldCase(pattern[i])
  }

  /** `pattern` occurs somewhere in `s`, ignoring case. */
  predicate ContainsIgnoringCase(s: string, pattern: string) {
    exists i :: 0 <= i <= |s| && StartsWithIgnoringCase(s[i..], pattern)
  }

  /** `s.replace(/pattern/gi, replacement)` for a pattern without special characters: matches
      are found left to right and do not overlap. */
  function ReplaceAllIgnoringCase(s: string, pattern: string, replacement: string): (r: string)
    requires pattern != ""
    ensures |replacement| <= |pattern| ==> |r| <= |s|
    decreases |s|
  {
    if s == [] then []
    else if StartsWithIgnoringCase(s, pattern) then
      replacement + ReplaceAllIgnoringCase(s[|pattern|..], pattern, replacement)
    else [s[0]] + ReplaceAllIgnoringCase(s[1..], pattern, replacement)
  }

  /** An occurrence in `s[1..]` is an occurrence in `s`. */
  lemma ContainsInTail(s: string, pattern: string)
    requires s != [] && ContainsIgnoringCase(s[1..], pattern)
    ensures ContainsIgnoringCase(s, pattern)
  {
    var i :| 0 <= i <= |s[1..]| && StartsWithIgnoringCase(s[1..][i..], pattern);
    assert s[1..][i..] == s[i + 1..];
  }

  /** Without an occurrence, replacing changes nothing. */
  lemma {:induction false} ReplaceWithoutOccurrence(s: string, pattern: string, replacement: string)
    requires pattern != "" && !ContainsIgnoringCase(s, pattern)
    ensures ReplaceAllIgnoringCase(s, pattern, replacement) == s
    decreases |s|
  {
    if s != [] {
      assert s[0..] == s;
      if ContainsIgnoringCase(s[1..], pattern) {
        ContainsInTail(s, pattern);
      }
      ReplaceWithoutOccurrence(s[1..], pattern, replacement);
    }
  }

  /** With an occurrence and a shorter replacement, the result is strictly shorter. */
  lemma {:induction false} ReplaceOccurrenceShortens(s: string, pattern: string, replacement: string)
    requires pattern != "" && |replacement| < |pattern| && ContainsIgnoringCase(s, pattern)
    ensures |ReplaceAllIgnoringCase(s, pattern, replacement)| < |s|
    decreases |s|
  {
    if !StartsWithIgnoringCase(s, pattern) {
      var i :| 0 <= i <= |s| && StartsWithIgnoringCase(s[i..], pattern);
      assert i != 0;
      assert s[1..][i - 1..] == s[i..];
      ReplaceOccurrenceShortens(s[1..], pattern, replacement);
    }
  }

  const OpeningWrapper: string := "<figure><iframe"
  const ClosingWrapper: string := "</iframe></figure>"

  /** `stripWrappingFigureTags(htmlInput)`: `<figure><iframe` becomes `<iframe`, then
      `</iframe></figure>` becomes `</iframe>`, in any letter case. */
  function StripWrappingFigureTags(htmlInput: string): (r: string)
    ensures |r| <= |htmlInput|
  {
    var firstStrip := ReplaceAllIgnoringCase(htmlInput, OpeningWrapper, "<iframe");
    ReplaceAllIgnoringCase(firstStrip, ClosingWrapper, "</iframe>")
  }

  /** The input comes back unchanged exactly when it holds no wrapper tag in any letter case;
      otherwise the result is strictly shorter. */
  lemma StripUnchangedIffNoWrapper(htmlInput: string)
    ensures StripWrappingFigureTags(htmlInput) == htmlInput
        <==> !ContainsIgnoringCase(htmlInput, OpeningWrapper) && !ContainsIgnoringCase(htmlInput, ClosingWrapper)
    ensures StripWrappingFigureTags(htmlInput) != htmlInput ==> |StripWrappingFigureTags(htmlInput)| < |htmlInput|
  {
    var firstStrip := ReplaceAllIgnoringCase(htmlInput, OpeningWrapper, "<iframe");
    if ContainsIgnoringCase(htmlInput, OpeningWrapper) {
      ReplaceOccurrenceShortens(htmlInput, OpeningWrapper, "<iframe");
    } else {
      ReplaceWithoutOccurrence(htmlInput, OpeningWrapper, "<iframe");
      if ContainsIgnoringCase(htmlInput, ClosingWrapper) {
        ReplaceOccurrenceShortens(firstStrip, ClosingWrapper, "</iframe>");
      } else {
        ReplaceWithoutOccurrence(firstStrip, ClosingWrapper, "</iframe>");
      }
    }
  }

  // ----------------------------------------------------------------------------------------
  // Validators and the rule table

  /** `validateIsNotEmpty(value)`: a string is valid unless it is empty. */
  predicate ValidateIsNotEmpty(value: string): (r: bool)
    ensures r <==> Js.Truthy(Js.Str(value))
  {
    value != ""
  }

  /** `/^[0-9]*$/.test(value)`: every character is a decimal digit (`$` anchors at the very end,
      as the expression has no `m` flag), so the empty string passes. */
  predicate ValidateIsNumber(value: string): (r: bool)
    ensures r <==> forall i :: 0 <= i < |value| ==> '0' <= value[i] <= '9'
    decreases |value|
  {
    assert value != [] ==> forall i :: 1 <= i < |value| ==> value[i] == value[1..][i - 1];
    value == [] || ('0' <= value[0] <= '9' && ValidateIsNumber(value[1..]))
  }

  /** The validator a rule applies. */
  datatype Check = NotEmpty | OnlyNumbers

  predicate Passes(check: Check, value: string) {
    match check
    case NotEmpty => ValidateIsNotEmpty(value)
    case OnlyNumbers => ValidateIsNumber(value)
  }

  /** One entry of `IFRAME_VALIDATION`. Messages are given by their message ids; translating
      them is not part of this model. */
  datatype Rule = Rule(fields: seq<string>, errorMsg: string, check: Check)

  /** `IFRAME_VALIDATION`, in the order `Object.keys` lists it. */
  const IframeValidation: seq<Rule> := [
    Rule(["title", "src"], "validationCantBeEmpty", NotEmpty),
    Rule(["width", "height"], "validationOnlyNumbers", OnlyNumbers)
  ]

  /** No field is named by two rules of `IFRAME_VALIDATION`, so the order in which
      `validateInput` tries them cannot change its answer; the first rule checks for
      emptiness and the second for digits. */
  lemma IframeValidationDisjoint()
    ensures forall i, j, f :: 0 <= i < j < |IframeValidation| && f in IframeValidation[i].fields ==>
              f !in IframeValidation[j].fields
    ensures IframeValidation[0].check == NotEmpty && IframeValidation[1].check == OnlyNumbers
  {
  }

  /** The message of the first rule that covers `inputName` and that `value` fails, or `''`. */
  function FirstFailure(rules: seq<Rule>, inputName: string, value: string): string
    decreases |rules|
  {
    if rules == [] then ""
    else if inputName in rules[0].fields && !Passes(rules[0].check, value) then rules[0].errorMsg
    else FirstFailure(rules[1..], inputName, value)
  }

  /** The error `validateInput` owes for a field, by the rule table. */
  function InputError(inputName: string, value: string): string {
    FirstFailure(IframeValidation, inputName, value)
  }

  /** The rule table field by field: a title or source must not be empty, a width or height
      must be digits only, and any other field has no rule. */
  lemma InputErrorByField(inputName: string, value: string)
    ensures inputName in {"title", "src"} ==>
              InputError(inputName, value) == if value == "" then "validationCantBeEmpty" else ""
    ensures inputName in {"width", "height"} ==>
              InputError(inputName, value) == if ValidateIsNumber(value) then "" else "validationOnlyNumbers"
    ensures inputName !in {"title", "src", "width", "height"} ==> InputError(inputName, value) == ""
  {
    assert IframeValidation[1..][1..] == [];
  }

  /** A field passes its rule. */
  predicate FieldPasses(inputName: string, value: string) {
    && (inputName in {"title", "src"} ==> ValidateIsNotEmpty(value))
    && (inputName in {"width", "height"} ==> ValidateIsNumber(value))
  }

  /** A field has no error exactly when it passes its rule. */
  lemma NoErrorIffPasses(inputName: string, value: string)
    ensures InputError(inputName, value) == "" <==> FieldPasses(inputName, value)
  {
    InputErrorByField(inputName, value);
  }

  // ----------------------------------------------------------------------------------------
  // Form validation

  /** `validateInput(inputName, value)`: looks through the rules in order and returns the
      message of the first one the value fails. */
  method ValidateInput(inputName: string, value: string) returns (error: string)
    ensures error == InputError(inputName, value)
  {
    for index := 0 to |IframeValidation|
      invariant FirstFailure(IframeValidation[index..], inputName, value) == InputError(inputName, value)
    {
      var rule := IframeValidation[index];
      if inputName in rule.fields {
        if !Passes(rule.check, value) {
          return rule.errorMsg;
        }
      }
      assert IframeValidation[index..][1..] == IframeValidation[index + 1..];
    }
    return "";
  }

  /** `validateForm(fields)`: an error entry for every field, filled in field by field. */
  method ValidateForm(fields: map<string, string>) returns (inputErrors: map<string, string>)
    ensures inputErrors.Keys == fields.Keys
    ensures forall name :: name in fields ==> inputErrors[name] == InputError(name, fields[name])
  {
    inputErrors := map[];
    var remaining := fields.Keys;
    while remaining != {}
      invariant remaining <= fields.Keys
      invariant inputErrors.Keys == fields.Keys - remaining
      invariant forall name :: name in inputErrors ==> inputErrors[name] == InputError(name, fields[name])
      decreases |remaining|
    {
      var fieldName :| fieldName in remaining;
      var errorMsg := ValidateInput(fieldName, fields[fieldName]);
      inputErrors := inputErrors[fieldName := errorMsg];
      remaining := remaining - {fieldName};
    }
  }

  /** `isFormValid(inputErrors)`: the form is valid when no error message is set. */
  method IsFormValid(inputErrors: map<string, string>) returns (valid: bool)
    ensures valid <==> forall name :: name in inputErrors ==> inputErrors[name] == ""
  {
    var remaining := inputErrors.Keys;
    while remaining != {}
      invariant remaining <= inputErrors.Keys
      invariant forall name :: name in inputErrors && name !in remaining ==> inputErrors[name] == ""
      decreases |remaining|
    {
      var errorField :| errorField in remaining;
      var error := inputErrors[errorField];
      if |error| > 0 {
        return false;
      }
      remaining := remaining - {errorField};
    }
    return true;
  }

  /** Validating a form and then checking it succeeds exactly when every field passes its rule. */
  lemma ValidFormIffFieldsPass(fields: map<string, string>, inputErrors: map<string, string>)
    requires inputErrors.Keys == fields.Keys
    requires forall name :: name in fields ==> inputErrors[name] == InputError(name, fields[name])
    ensures (forall name :: name in inputErrors ==> inputErrors[name] == "")
        <==> forall name :: name in fields ==> FieldPasses(name, fields[name])
  {
    forall name | name in fields ensures inputErrors[name] == "" <==> FieldPasses(name, fields[name]) {
      NoErrorIffPasses(name, fields[name]);
    }
  }
}
