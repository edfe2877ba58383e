/**
 * The checked enumerations of frameworks, page archetypes and component
 * archetypes, and the project-name rule (src/utils/validator.ts).
 */
module Validator {
  import opened OrderedDict

  const Frameworks: seq<string> :=
    ["bootstrap", "tailwind", "materialize", "skeleton", "daisyui", "vanilla", "html5"]

  const PageTypes: seq<string> :=
    ["about", "contact", "landing", "pricing", "portfolio", "login", "register", "dashboard"]

  const ComponentTypes: seq<string> :=
    ["navbar", "hero", "card", "footer", "sidebar", "modal", "form"]

  /** A validator's answer: `true`, or the message explaining the failure. */
  datatype Verdict = Accept | Reject(message: string)

  const EmptyNameMessage := "Project name cannot be empty"
  const NameCharsMessage := "Project name can only contain letters, numbers, hyphens, and underscores"
  const NameStartMessage := "Project name must start with a letter"

  /** The characters `String.prototype.trim` strips: white space and line terminators. */
  predicate IsTrimmed(c: char) {
    c in {'\t', '\n', '\U{000B}', '\U{000C}', '\r', ' ', '\U{00A0}', '\U{1680}',
          '\U{2000}', '\U{2001}', '\U{2002}', '\U{2003}', '\U{2004}', '\U{2005}',
          '\U{2006}', '\U{2007}', '\U{2008}', '\U{2009}', '\U{200A}',
          '\U{2028}', '\U{2029}', '\U{202F}', '\U{205F}', '\U{3000}', '\U{FEFF}'}
  }

  /** `name.trim().length === 0`: nothing is left once white space is stripped. */
  predicate BlankAfterTrim(name: string) {
    forall i :: 0 <= i < |name| ==> IsTrimmed(name[i])
  }

  /** `[a-zA-Z]` */
  predicate IsAsciiLetter(c: char) {
    'a' <= c <= 'z' || 'A' <= c <= 'Z'
  }

  /** `[a-zA-Z0-9-_]` */
  predicate IsNameChar(c: char) {
    IsAsciiLetter(c) || '0' <= c <= '9' || c == '-' || c == '_'
  }

  /** `/^[a-zA-Z0-9-_]+$/.test(name)` */
  predicate OnlyNameChars(name: string) {
    |name| > 0 && forall i :: 0 <= i < |name| ==> IsNameChar(name[i])
  }

  /**
   * `validateProjectName`: the blank check first, then the character check,
   * then the leading-letter check; the name is accepted exactly when it is
   * non-empty, made of `[A-Za-z0-9_-]` and starts with an ASCII letter.
   */
  function ValidateProjectName(name: string): (r: Verdict)
    ensures r == Accept <==>
      |name| > 0 && (forall i :: 0 <= i < |name| ==> IsNameChar(name[i])) && IsAsciiLetter(name[0])
    ensures r == Reject(EmptyNameMessage) <==> BlankAfterTrim(name)
    ensures r == Reject(NameCharsMessage) <==>
      !BlankAfterTrim(name) && exists i :: 0 <= i < |name| && !IsNameChar(name[i])
    ensures r == Reject(NameStartMessage) <==> OnlyNameChars(name) && !IsAsciiLetter(name[0])
  {
    if name == "" || BlankAfterTrim(name) then Reject(EmptyNameMessage)
    else if !OnlyNameChars(name) then Reject(NameCharsMessage)
    else if !IsAsciiLetter(name[0]) then Reject(NameStartMessage)
    else Accept
  }

  /** The three examples the tool's documentation gives. */
  lemma ProjectNameExamples()
    ensures ValidateProjectName("my-app") == Accept
    ensures ValidateProjectName("1abc") == Reject(NameStartMessage)
    ensures ValidateProjectName("bad name") == Reject(NameCharsMessage)
    ensures ValidateProjectName("   ") == Reject(EmptyNameMessage)
  {
    assert !IsNameChar("bad name"[3]);
    assert !IsTrimmed("my-app"[0]) && !IsTrimmed("1abc"[0]) && !IsTrimmed("bad name"[0]);
  }

  /** `VALID_FRAMEWORKS.includes(framework)` */
  function ValidateFramework(framework: string): (r: bool)
    ensures r <==> (framework == "bootstrap" || framework == "tailwind" || framework == "materialize" ||
                    framework == "skeleton" || framework == "daisyui" || framework == "vanilla" ||
                    framework == "html5")
  {
    framework in Frameworks
  }

  /** `VALID_PAGE_TYPES.includes(pageType)` */
  function ValidatePageType(pageType: string): (r: bool)
    ensures r <==> (pageType == "about" || pageType == "contact" || pageType == "landing" ||
                    pageType == "pricing" || pageType == "portfolio" || pageType == "login" ||
                    pageType == "register" || pageType == "dashboard")
  {
    pageType in PageTypes
  }

  /** `VALID_COMPONENT_TYPES.includes(componentType)` */
  function ValidateComponentType(componentType: string): (r: bool)
    ensures r <==> (componentType == "navbar" || componentType == "hero" || componentType == "card" ||
                    componentType == "footer" || componentType == "sidebar" || componentType == "modal" ||
                    componentType == "form")
  {
    componentType in ComponentTypes
  }

  /** `getValidFrameworks`: the seven frameworks, each once, exactly the accepted ones. */
  function GetValidFrameworks(): (r: seq<string>)
    ensures |r| == 7 && Distinct(r)
    ensures forall f :: f in r <==> ValidateFramework(f)
  {
    Frameworks
  }

  /** `getValidPageTypes`: the eight page archetypes, each once. */
  function GetValidPageTypes(): (r: seq<string>)
    ensures |r| == 8 && Distinct(r)
    ensures forall p :: p in r <==> ValidatePageType(p)
  {
    PageTypes
  }

  /** `getValidComponentTypes`: the seven component archetypes, each once. */
  function GetValidComponentTypes(): (r: seq<string>)
    ensures |r| == 7 && Distinct(r)
    ensures forall c :: c in r <==> ValidateComponentType(c)
  {
    ComponentTypes
  }
}
