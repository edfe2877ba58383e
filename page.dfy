/**
 * Page skeletons (src/generators/page.ts). Every page is the same HTML
 * document: a head with the page title and the framework's stylesheet or
 * script links, then a body particular to the page type. A table maps the
 * eight page names to their pages and falls back to the about page.
 */
module Page {
  import opened Optional
  import opened Text
  import opened Files
  import Validator

  datatype PageKind = About | Contact | Landing | Pricing | Portfolio | Login | Register | Dashboard

  /** The page's key in the lookup table. */
  function Key(k: PageKind): (r: string)
    ensures Validator.ValidatePageType(r)
  {
    match k
    case About => "about"
    case Contact => "contact"
    case Landing => "landing"
    case Pricing => "pricing"
    case Portfolio => "portfolio"
    case Login => "login"
    case Register => "register"
    case Dashboard => "dashboard"
  }

  /** The table lookup: a known name gives its page type, any other name nothing. */
  function KindOf(pageType: string): (r: Option<PageKind>)
    ensures r.Some? <==> Validator.ValidatePageType(pageType)
    ensures r.Some? ==> Key(r.value) == pageType
  {
    match pageType
    case "about" => Some(About)
    case "contact" => Some(Contact)
    case "landing" => Some(Landing)
    case "pricing" => Some(Pricing)
    case "portfolio" => Some(Portfolio)
    case "login" => Some(Login)
    case "register" => Some(Register)
    case "dashboard" => Some(Dashboard)
    case _ => None
  }

  /** The text of the page's `<title>`. */
  function Title(k: PageKind): string {
    match k
    case About => "About Us"
    case Contact => "Contact"
    case Landing => "Welcome"
    case Pricing => "Pricing"
    case Portfolio => "Portfolio"
    case Login => "Login"
    case Register => "Register"
    case Dashboard => "Dashboard"
  }

  const BootstrapLinks :=
    @"<link href=""https://cdn.jsdelivr.net/npm/bootstrap@5.3.2/dist/css/bootstrap.min.css"" rel=""stylesheet"">"
  const TailwindLinks :=
    @"<script src=""https://cdn.tailwindcss.com""></script>"
  const MaterializeLinks :=
    @"<link rel=""stylesheet"" href=""https://cdnjs.cloudflare.com/ajax/libs/materialize/1.0.0/css/materialize.min.css"">"
  const SkeletonLinks :=
    @"<link rel=""stylesheet"" href=""https://cdnjs.cloudflare.com/ajax/libs/skeleton/2.0.4/skeleton.min.css"">"
  const DaisyuiLinks :=
    @"<link href=""https://cdn.jsdelivr.net/npm/daisyui@4.4.19/dist/full.min.css"" rel=""stylesheet"">" + "\n    " +
    @"<script src=""https://cdn.tailwindcss.com""></script>"
  /** The project's own stylesheet. */
  const LocalStylesheet :=
    @"<link rel=""stylesheet"" href=""assets/css/main.css"">"

  /** The five frameworks served from a CDN. */
  predicate HasCdn(framework: string) {
    framework == "bootstrap" || framework == "tailwind" || framework == "materialize" ||
    framework == "skeleton" || framework == "daisyui"
  }

  /**
   * `getFrameworkLinks`: a CDN stylesheet or script for the five CDN
   * frameworks, the project's own stylesheet for every other name, vanilla
   * and html5 included. The result is never empty.
   */
  function FrameworkLinks(framework: string): (r: string)
    ensures r != ""
    ensures r == LocalStylesheet <==> !HasCdn(framework)
  {
    match framework
    case "bootstrap" => BootstrapLinks
    case "tailwind" => TailwindLinks
    case "materialize" => MaterializeLinks
    case "skeleton" => SkeletonLinks
    case "daisyui" => DaisyuiLinks
    case _ => LocalStylesheet
  }

  /** Everything before the title. */
  const DocumentStart :=
    @"<!DOCTYPE html>
<html lang=""en"">
<head>
    <meta charset=""UTF-8"">
    <meta name=""viewport"" content=""width=device-width, initial-scale=1.0"">
    <title>"

  /** The document head: the fixed meta tags, the title, the framework links. */
  function Head(title: string, links: string): string {
    DocumentStart + title + "</title>\n    " + links + "\n</head>\n<body>\n"
  }

  const DocumentEnd := "</body>\n</html>\n"

  /** The document every page shares around its body. */
  function Layout(title: string, links: string, body: string): (r: string)
    ensures IsPrefix(Head(title, links), r)
    ensures IsSuffix(DocumentEnd, r)
  {
    var h := Head(title, links);
    assert (h + body + DocumentEnd)[..|h|] == h;
    h + body + DocumentEnd
  }

  const AboutIntro :=
    @"    <div class=""container"">
        <h1>About Us</h1>
        <p>This is an about page template for "

  const AboutOutro :=
    @".</p>
        <!-- Add your content here -->
    </div>
"

  const ContactBody :=
    @"    <div class=""container"">
        <h1>Contact Us</h1>
        <form>
            <input type=""text"" placeholder=""Name"" required>
            <input type=""email"" placeholder=""Email"" required>
            <textarea placeholder=""Message"" required></textarea>
            <button type=""submit"">Send</button>
        </form>
    </div>
"

  const LandingBody :=
    @"    <div class=""hero"">
        <h1>Welcome to Our Product</h1>
        <p>The best solution for your needs</p>
        <button>Get Started</button>
    </div>
"

  const PricingBody :=
    @"    <div class=""container"">
        <h1>Pricing Plans</h1>
        <!-- Pricing cards would go here -->
    </div>
"

  const PortfolioBody :=
    @"    <div class=""container"">
        <h1>Our Portfolio</h1>
        <!-- Portfolio grid would go here -->
    </div>
"

  const LoginBody :=
    @"    <div class=""container"">
        <h2>Login</h2>
        <form>
            <input type=""email"" placeholder=""Email"" required>
            <input type=""password"" placeholder=""Password"" required>
            <button type=""submit"">Login</button>
        </form>
    </div>
"

  const RegisterBody :=
    @"    <div class=""container"">
        <h2>Create Account</h2>
        <form>
            <input type=""text"" placeholder=""Name"" required>
            <input type=""email"" placeholder=""Email"" required>
            <input type=""password"" placeholder=""Password"" required>
            <button type=""submit"">Register</button>
        </form>
    </div>
"

  const DashboardBody :=
    @"    <div class=""dashboard"">
        <aside class=""sidebar"">
            <h3>Dashboard</h3>
            <!-- Sidebar content -->
        </aside>
        <main>
            <h1>Dashboard</h1>
            <!-- Dashboard content -->
        </main>
    </div>
"

  /** The about page's text, which names the framework. */
  function AboutBody(framework: string): (r: string)
    ensures Contains(r, framework)
  {
    ContainsInfix(AboutIntro, framework, AboutOutro);
    AboutIntro + framework + AboutOutro
  }

  /** The body of each page type; only the about page mentions the framework. */
  function Body(k: PageKind, framework: string): string {
    match k
    case About => AboutBody(framework)
    case Contact => ContactBody
    case Landing => LandingBody
    case Pricing => PricingBody
    case Portfolio => PortfolioBody
    case Login => LoginBody
    case Register => RegisterBody
    case Dashboard => DashboardBody
  }

  /**
   * The eight page generators (`generateAboutPage` ... `generateDashboardPage`):
   * each page's title and body in the shared layout, with the framework's
   * links in its head.
   */
  function PageFor(k: PageKind, framework: string): (r: string)
    ensures IsPrefix(Head(Title(k), FrameworkLinks(framework)), r)
    ensures IsSuffix(DocumentEnd, r)
  {
    Layout(Title(k), FrameworkLinks(framework), Body(k, framework))
  }

  /** `generatePageHTML`: the page for a known name, the about page for any other. */
  function PageHTML(pageType: string, framework: string): (r: string)
    ensures Validator.ValidatePageType(pageType) ==> r == PageFor(KindOf(pageType).value, framework)
    ensures !Validator.ValidatePageType(pageType) ==> r == PageFor(About, framework)
  {
    PageFor(KindOf(pageType).GetOr(About), framework)
  }

  /** Any name outside the table gives exactly the about page. */
  lemma FallbackIsAbout(pageType: string, framework: string)
    requires !Validator.ValidatePageType(pageType)
    ensures PageHTML(pageType, framework) == PageHTML("about", framework)
  {
  }

  /** Every page carries the framework's links. */
  lemma {:induction false} LinksEmbedded(k: PageKind, framework: string)
    ensures Contains(PageFor(k, framework), FrameworkLinks(framework))
  {
    var links := FrameworkLinks(framework);
    var h := Head(Title(k), links);
    ContainsInfix(DocumentStart + Title(k) + "</title>\n    ", links, "\n</head>\n<body>\n");
    ContainsExtended(h, Body(k, framework), links);
    ContainsExtended(h + Body(k, framework), DocumentEnd, links);
  }

  /** The about page names the framework it was generated for. */
  lemma {:induction false} AboutNamesFramework(framework: string)
    ensures Contains(PageFor(About, framework), framework)
  {
    ContainsInContext(Head(Title(About), FrameworkLinks(framework)), AboutBody(framework), DocumentEnd, framework);
  }

  /** The title sits right after the fixed start of the document. */
  lemma {:induction false} LayoutSpellsTitle(title: string, links: string, body: string, j: nat)
    requires j < |title|
    ensures Layout(title, links, body)[|DocumentStart| + j] == title[j]
  {
  }

  /** A position where the titles of two different page types differ. */
  function TitleDifference(k1: PageKind, k2: PageKind): (j: nat)
    requires k1 != k2
    ensures j < |Title(k1)| && j < |Title(k2)| && Title(k1)[j] != Title(k2)[j]
  {
    if (k1 == Pricing && k2 == Portfolio) || (k1 == Portfolio && k2 == Pricing) then 1 else 0
  }

  /** For a given framework, the eight page types give eight different pages. */
  lemma {:induction false} DistinctPages(k1: PageKind, k2: PageKind, framework: string)
    requires k1 != k2
    ensures PageFor(k1, framework) != PageFor(k2, framework)
  {
    var j := TitleDifference(k1, k2);
    LayoutSpellsTitle(Title(k1), FrameworkLinks(framework), Body(k1, framework), j);
    LayoutSpellsTitle(Title(k2), FrameworkLinks(framework), Body(k2, framework), j);
  }

  /** `generatePageTemplate`: one write of the page to the output path. */
  function PageTemplate(pageType: string, framework: string, outputPath: string): (w: FileWrite)
    ensures w.path == outputPath
    ensures w.content == PageHTML(pageType, framework)
  {
    FileWrite(outputPath, PageHTML(pageType, framework))
  }
}
