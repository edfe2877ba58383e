/**
 * Icon-library snippets for the generated index page
 * (src/utils/icon-manager.ts): a CDN tag, an example and a comment linking the library's site
 * for Heroicons and Font Awesome, and nothing for any other library,
 * "none" included.
 */
module Icons {
  import opened Text

  /** The two libraries that have snippets. */
  predicate HasSnippets(library: string) {
    library == "heroicons" || library == "fontawesome"
  }

  /*
   * Each snippet keeps its opening tag as a piece of its own, so that proofs
   * can tell the kinds of markup apart.
   */

  const HeroiconsScript :=
    "<script" + @" src=""https://cdn.jsdelivr.net/npm/heroicons@2.0.18/24/outline/index.js""></script>"

  const FontAwesomeStylesheet :=
    "<link" + @" rel=""stylesheet"" href=""https://cdnjs.cloudflare.com/ajax/libs/font-awesome/6.5.1/css/all.min.css"" integrity=""sha512-DTOQO9RWCH3ppGqcWaEA1BIZOC6xxalwEsw9c2QQeAIftl+Vegovlnee1c9QX4TctnWMn13TZye+giMm8e2LwA=="" crossorigin=""anonymous"" referrerpolicy=""no-referrer"">"

  const HeroiconsExample :=
    "<!--" + @" HeroIcons Example -->
<svg class=""h-6 w-6"" fill=""none"" viewBox=""0 0 24 24"" stroke=""currentColor"">
  <path stroke-linecap=""round"" stroke-linejoin=""round"" stroke-width=""2"" d=""M4 6h16M4 12h16M4 18h16"" />
</svg>"

  const FontAwesomeExample :=
    "<!--" + @" Font Awesome Example -->
<i class=""fas fa-home""></i>
<i class=""fas fa-user""></i>
<i class=""fas fa-bars""></i>"

  const HeroiconsComment :=
    "<!--" + @" HeroIcons: https://heroicons.com/ -->"

  const FontAwesomeComment :=
    "<!--" + @" Font Awesome: https://fontawesome.com/icons -->"

  /**
   * `getIconCDN`: a script tag for Heroicons, a stylesheet link for Font
   * Awesome, "" for anything else.
   */
  function GetIconCDN(library: string): (r: string)
    ensures r != "" <==> HasSnippets(library)
    ensures IsPrefix("<script", r) <==> library == "heroicons"
    ensures IsPrefix("<link", r) <==> library == "fontawesome"
  {
    match library
    case "heroicons" =>
      NotPrefixAt("<link", HeroiconsScript, 1);
      HeroiconsScript
    case "fontawesome" =>
      NotPrefixAt("<script", FontAwesomeStylesheet, 1);
      FontAwesomeStylesheet
    case _ => ""
  }

  /** `getIconExample`: example markup, opening with an HTML comment, for the two libraries. */
  function GetIconExample(library: string): (r: string)
    ensures r != "" <==> HasSnippets(library)
    ensures r != "" ==> IsPrefix("<!--", r)
  {
    match library
    case "heroicons" => HeroiconsExample
    case "fontawesome" => FontAwesomeExample
    case _ => ""
  }

  /** `getIconsComment`: an HTML comment naming the library's site, for the two libraries. */
  function GetIconsComment(library: string): (r: string)
    ensures r != "" <==> HasSnippets(library)
    ensures r != "" ==> IsPrefix("<!--", r)
  {
    match library
    case "heroicons" => HeroiconsComment
    case "fontawesome" => FontAwesomeComment
    case _ => ""
  }
}
