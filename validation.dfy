/** The backend's request validators: guard checks in a fixed order, the first that fails
    giving the error. The arguments come from a parsed JSON body, so they are JavaScript values
    of any type, not only strings. */
module Validation {
  import opened Options
  import opened Text

  /** A JavaScript value as far as the checks can tell them apart. `Other` is any value that is
      not a string, with its truthiness. */
  datatype JsValue = Undefined | Null | Str(s: string) | Other(truthy: bool)

  /** `{ isValid, error? }`. */
  datatype ValidationResult = ValidationResult(isValid: bool, error: Option<string>)

  const MaxContentLength: nat := 50000

  const ContentRequired: string := "Content is required and must be a string"
  const ContentEmpty: string := "Content cannot be empty"
  const ContentTooLong: string := "Content is too long (max 50,000 characters)"
  const TitleNotString: string := "Title must be a string"
  const UrlRequired: string := "URL is required and must be a string"
  const UrlScheme: string := "URL must start with http:// or https://"
  const UrlInvalid: string := "Invalid URL format"

  predicate Truthy(v: JsValue)
  {
    match v
    case Undefined => false
    case Null => false
    case Str(s) => s != ""
    case Other(t) => t
  }

  /** `!v || typeof v !== "string"` is false: a string that is not empty. */
  predicate IsNonEmptyString(v: JsValue)
  {
    v.Str? && v.s != ""
  }

  function Invalid(message: string): ValidationResult
  {
    ValidationResult(false, Some(message))
  }

  const Valid: ValidationResult := ValidationResult(true, None)

  /** `validateSummaryRequest(content, title)`. */
  function ValidateSummaryRequest(content: JsValue, title: JsValue): (r: ValidationResult)
    ensures r.isValid <==> r.error.None?
  {
    if !IsNonEmptyString(content) then Invalid(ContentRequired)
    else if |Trim(content.s)| == 0 then Invalid(ContentEmpty)
    else if |content.s| > MaxContentLength then Invalid(ContentTooLong)
    else if Truthy(title) && !title.Str? then Invalid(TitleNotString)
    else Valid
  }

  /** A request is valid exactly when the content is a string with a character that is not
      whitespace, at most 50000 characters long, and the title is a string or falsy. */
  lemma {:induction false} ValidRequest(content: JsValue, title: JsValue)
    ensures ValidateSummaryRequest(content, title).isValid <==>
              content.Str? && !AllSpace(content.s) && |content.s| <= MaxContentLength
              && (title.Str? || !Truthy(title))
  {
  }

  /** Each error is reported exactly when its check is the first to fail: empty content is
      reported as missing, not as blank, and an over-long blank content as blank. */
  lemma {:induction false} RequestErrors(content: JsValue, title: JsValue)
    ensures var e := ValidateSummaryRequest(content, title).error;
            (e == Some(ContentRequired) <==> !IsNonEmptyString(content))
            && (e == Some(ContentEmpty) <==> IsNonEmptyString(content) && AllSpace(content.s))
            && (e == Some(ContentTooLong) <==>
                  IsNonEmptyString(content) && !AllSpace(content.s) && |content.s| > MaxContentLength)
            && (e == Some(TitleNotString) <==>
                  IsNonEmptyString(content) && !AllSpace(content.s)
                  && |content.s| <= MaxContentLength && Truthy(title) && !title.Str?)
  {
  }

  /** `validateUrl(url)`; `parses` says whether `new URL(url)` succeeds. */
  function ValidateUrl(url: JsValue, parses: string -> bool): (r: ValidationResult)
    ensures r.isValid <==> r.error.None?
  {
    if !IsNonEmptyString(url) then Invalid(UrlRequired)
    else if !parses(url.s) then Invalid(UrlInvalid)
    else if !StartsWith(url.s, "http://") && !StartsWith(url.s, "https://") then Invalid(UrlScheme)
    else Valid
  }

  /** A URL is valid exactly when it is a string that parses and starts with `http://` or
      `https://`; one that does not parse is reported as malformed whatever its scheme, and one
      that parses with another scheme as having the wrong scheme. */
  lemma {:induction false} UrlErrors(url: JsValue, parses: string -> bool)
    ensures ValidateUrl(url, parses).isValid <==>
              url.Str? && url.s != "" && parses(url.s)
              && (StartsWith(url.s, "http://") || StartsWith(url.s, "https://"))
    ensures ValidateUrl(url, parses).error == Some(UrlRequired) <==> !IsNonEmptyString(url)
    ensures ValidateUrl(url, parses).error == Some(UrlInvalid) <==>
              IsNonEmptyString(url) && !parses(url.s)
    ensures ValidateUrl(url, parses).error == Some(UrlScheme) <==>
              IsNonEmptyString(url) && parses(url.s)
              && !StartsWith(url.s, "http://") && !StartsWith(url.s, "https://")
  {
  }
}
