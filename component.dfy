/**
 * Component snippets (src/generators/component.ts). A lookup table maps
 * each of the seven archetype names to its generator and falls back to the
 * navbar for any other name. The navbar, card and modal generators have a
 * Bootstrap variant; every other output is the generic markup, opened by a
 * comment naming the archetype and the framework.
 */
module Component {
  import opened Optional
  import opened Text
  import opened Files
  import Validator

  datatype ComponentKind = Navbar | Hero | Card | Footer | Sidebar | Modal | Form

  /** The archetype's key in the lookup table. */
  function Key(k: ComponentKind): (r: string)
    ensures Validator.ValidateComponentType(r)
  {
    match k
    case Navbar => "navbar"
    case Hero => "hero"
    case Card => "card"
    case Footer => "footer"
    case Sidebar => "sidebar"
    case Modal => "modal"
    case Form => "form"
  }

  /** The table lookup: a known name gives its archetype, any other name nothing. */
  function KindOf(componentType: string): (r: Option<ComponentKind>)
    ensures r.Some? <==> Validator.ValidateComponentType(componentType)
    ensures r.Some? ==> Key(r.value) == componentType
  {
    match componentType
    case "navbar" => Some(Navbar)
    case "hero" => Some(Hero)
    case "card" => Some(Card)
    case "footer" => Some(Footer)
    case "sidebar" => Some(Sidebar)
    case "modal" => Some(Modal)
    case "form" => Some(Form)
    case _ => None
  }

  /** The archetype's name as written in its generic comment. */
  function Label(k: ComponentKind): string {
    match k
    case Navbar => "Navbar"
    case Hero => "Hero"
    case Card => "Card"
    case Footer => "Footer"
    case Sidebar => "Sidebar"
    case Modal => "Modal"
    case Form => "Form"
  }

  /** The comment that opens every generic snippet. */
  function Comment(k: ComponentKind, framework: string): string {
    "<!-- " + Label(k) + " Component for " + framework + " -->"
  }

  /** The archetypes that have Bootstrap markup of their own. */
  predicate HasBootstrapVariant(k: ComponentKind) {
    k == Navbar || k == Card || k == Modal
  }

  /** The generator takes its Bootstrap branch. */
  predicate UsesBootstrap(k: ComponentKind, framework: string) {
    HasBootstrapVariant(k) && framework == "bootstrap"
  }

  /*
   * The Bootstrap snippets keep their opening tag (for the two `div`s, up to
   * the class that tells them apart) as a piece of their own, so that proofs
   * can tell the snippets apart.
   */

  const NavbarBootstrap :=
    "<nav" + @" class=""navbar navbar-expand-lg navbar-light bg-light"">
  <div class=""container-fluid"">
    <a class=""navbar-brand"" href=""#"">Brand</a>
    <button class=""navbar-toggler"" type=""button"" data-bs-toggle=""collapse"" data-bs-target=""#navbarNav"">
      <span class=""navbar-toggler-icon""></span>
    </button>
    <div class=""collapse navbar-collapse"" id=""navbarNav"">
      <ul class=""navbar-nav"">
        <li class=""nav-item"">
          <a class=""nav-link active"" href=""#"">Home</a>
        </li>
        <li class=""nav-item"">
          <a class=""nav-link"" href=""#"">About</a>
        </li>
        <li class=""nav-item"">
          <a class=""nav-link"" href=""#"">Contact</a>
        </li>
      </ul>
    </div>
  </div>
</nav>"

  const CardBootstrap :=
    @"<div class=""card""" + @" style=""width: 18rem;"">
  <img src=""..."" class=""card-img-top"" alt=""..."">
  <div class=""card-body"">
    <h5 class=""card-title"">Card title</h5>
    <p class=""card-text"">Some quick example text.</p>
    <a href=""#"" class=""btn btn-primary"">Go somewhere</a>
  </div>
</div>"

  const ModalBootstrap :=
    @"<div class=""modal" + @" fade"" id=""exampleModal"" tabindex=""-1"">
  <div class=""modal-dialog"">
    <div class=""modal-content"">
      <div class=""modal-header"">
        <h5 class=""modal-title"">Modal title</h5>
        <button type=""button"" class=""btn-close"" data-bs-dismiss=""modal""></button>
      </div>
      <div class=""modal-body"">
        <p>Modal body text goes here.</p>
      </div>
      <div class=""modal-footer"">
        <button type=""button"" class=""btn btn-secondary"" data-bs-dismiss=""modal"">Close</button>
        <button type=""button"" class=""btn btn-primary"">Save</button>
      </div>
    </div>
  </div>
</div>"

  /* The generic markup that follows each comment. */

  const NavbarBody :=
    @"
<nav>
  <a href=""#"">Brand</a>
  <ul>
    <li><a href=""#"">Home</a></li>
    <li><a href=""#"">About</a></li>
    <li><a href=""#"">Contact</a></li>
  </ul>
</nav>"

  const HeroBody :=
    @"
<section class=""hero"">
  <h1>Welcome to Our Site</h1>
  <p>Your tagline goes here</p>
  <button>Get Started</button>
</section>"

  const CardBody :=
    @"
<div class=""card"">
  <img src=""..."" alt=""..."">
  <h3>Card title</h3>
  <p>Card content goes here.</p>
  <button>Action</button>
</div>"

  const FooterHead :=
    @"
<footer>
  <div class=""container"">
    <p>&copy; "

  const FooterTail :=
    @" Your Company. All rights reserved.</p>
  </div>
</footer>"

  const SidebarBody :=
    @"
<aside class=""sidebar"">
  <nav>
    <ul>
      <li><a href=""#"">Dashboard</a></li>
      <li><a href=""#"">Profile</a></li>
      <li><a href=""#"">Settings</a></li>
      <li><a href=""#"">Logout</a></li>
    </ul>
  </nav>
</aside>"

  const ModalBody :=
    @"
<div class=""modal"">
  <div class=""modal-content"">
    <span class=""close"">&times;</span>
    <h2>Modal Title</h2>
    <p>Modal content goes here.</p>
  </div>
</div>"

  const FormBody :=
    @"
<form>
  <div class=""form-group"">
    <label for=""name"">Name</label>
    <input type=""text"" id=""name"" name=""name"" required>
  </div>
  <div class=""form-group"">
    <label for=""email"">Email</label>
    <input type=""email"" id=""email"" name=""email"" required>
  </div>
  <div class=""form-group"">
    <label for=""message"">Message</label>
    <textarea id=""message"" name=""message"" rows=""4"" required></textarea>
  </div>
  <button type=""submit"">Submit</button>
</form>"

  /** The generic footer markup, with the current year in the copyright line. */
  function FooterBody(year: nat): (r: string)
    ensures Contains(r, NatToString(year))
  {
    ContainsInfix(FooterHead, NatToString(year), FooterTail);
    FooterHead + NatToString(year) + FooterTail
  }

  /** `generateNavbar`: Bootstrap markup exactly for "bootstrap", otherwise the generic navbar. */
  function NavbarComponent(framework: string): (r: string)
    ensures framework == "bootstrap" <==> r == NavbarBootstrap
    ensures framework != "bootstrap" <==> IsPrefix(Comment(Navbar, framework), r)
  {
    if framework == "bootstrap" then
      NotPrefixAt(Comment(Navbar, framework), NavbarBootstrap, 1);
      NavbarBootstrap
    else
      var r := Comment(Navbar, framework) + NavbarBody;
      assert r[1] != NavbarBootstrap[1];
      r
  }

  /** `generateHero`: always the generic hero section. */
  function HeroComponent(framework: string): (r: string)
    ensures IsPrefix(Comment(Hero, framework), r)
  {
    Comment(Hero, framework) + HeroBody
  }

  /** `generateCard`: Bootstrap markup exactly for "bootstrap", otherwise the generic card. */
  function CardComponent(framework: string): (r: string)
    ensures framework == "bootstrap" <==> r == CardBootstrap
    ensures framework != "bootstrap" <==> IsPrefix(Comment(Card, framework), r)
  {
    if framework == "bootstrap" then
      NotPrefixAt(Comment(Card, framework), CardBootstrap, 1);
      CardBootstrap
    else
      var r := Comment(Card, framework) + CardBody;
      assert r[1] != CardBootstrap[1];
      r
  }

  /** `generateFooter`: always the generic footer, stamped with the year. */
  function FooterComponent(framework: string, year: nat): (r: string)
    ensures IsPrefix(Comment(Footer, framework), r)
    ensures Contains(r, NatToString(year))
  {
    ContainsInContext(Comment(Footer, framework), FooterBody(year), "", NatToString(year));
    assert Comment(Footer, framework) + FooterBody(year) + "" == Comment(Footer, framework) + FooterBody(year);
    Comment(Footer, framework) + FooterBody(year)
  }

  /** `generateSidebar`: always the generic sidebar. */
  function SidebarComponent(framework: string): (r: string)
    ensures IsPrefix(Comment(Sidebar, framework), r)
  {
    Comment(Sidebar, framework) + SidebarBody
  }

  /** `generateModal`: Bootstrap markup exactly for "bootstrap", otherwise the generic modal. */
  function ModalComponent(framework: string): (r: string)
    ensures framework == "bootstrap" <==> r == ModalBootstrap
    ensures framework != "bootstrap" <==> IsPrefix(Comment(Modal, framework), r)
  {
    if framework == "bootstrap" then
      NotPrefixAt(Comment(Modal, framework), ModalBootstrap, 1);
      ModalBootstrap
    else
      var r := Comment(Modal, framework) + ModalBody;
      assert r[1] != ModalBootstrap[1];
      r
  }

  /** `generateForm`: always the generic form. */
  function FormComponent(framework: string): (r: string)
    ensures IsPrefix(Comment(Form, framework), r)
  {
    Comment(Form, framework) + FormBody
  }

  /** The generator the table holds for each archetype. */
  function Generator(k: ComponentKind, framework: string, year: nat): string {
    match k
    case Navbar => NavbarComponent(framework)
    case Hero => HeroComponent(framework)
    case Card => CardComponent(framework)
    case Footer => FooterComponent(framework, year)
    case Sidebar => SidebarComponent(framework)
    case Modal => ModalComponent(framework)
    case Form => FormComponent(framework)
  }

  /**
   * `generateComponentHTML`: the generator for a known name, the navbar's for
   * any other. `year` stands for `new Date().getFullYear()`.
   */
  function ComponentHTML(componentType: string, framework: string, year: nat): (r: string)
    ensures Validator.ValidateComponentType(componentType) ==>
      r == Generator(KindOf(componentType).value, framework, year)
    ensures !Validator.ValidateComponentType(componentType) ==> r == Generator(Navbar, framework, year)
  {
    Generator(KindOf(componentType).GetOr(Navbar), framework, year)
  }

  /** Any name outside the table gives exactly the navbar snippet. */
  lemma FallbackIsNavbar(componentType: string, framework: string, year: nat)
    requires !Validator.ValidateComponentType(componentType)
    ensures ComponentHTML(componentType, framework, year) == ComponentHTML("navbar", framework, year)
  {
  }

  /** The generic output: the comment, then markup that does not depend on the framework. */
  function Body(k: ComponentKind, year: nat): string {
    match k
    case Navbar => NavbarBody
    case Hero => HeroBody
    case Card => CardBody
    case Footer => FooterBody(year)
    case Sidebar => SidebarBody
    case Modal => ModalBody
    case Form => FormBody
  }

  /** The Bootstrap snippet of an archetype that has one. */
  function BootstrapMarkup(k: ComponentKind): string
    requires HasBootstrapVariant(k)
  {
    match k
    case Navbar => NavbarBootstrap
    case Card => CardBootstrap
    case Modal => ModalBootstrap
  }

  /** In its Bootstrap branch a generator returns the archetype's Bootstrap snippet, which never opens with a comment. */
  lemma {:induction false} BootstrapShape(k: ComponentKind, framework: string, year: nat)
    requires UsesBootstrap(k, framework)
    ensures Generator(k, framework, year) == BootstrapMarkup(k)
    ensures BootstrapMarkup(k)[1] != '!'
  {
    match k
    case Navbar => assert NavbarBootstrap[1] == 'n';
    case Card => assert CardBootstrap[1] == 'd';
    case Modal => assert ModalBootstrap[1] == 'd';
  }

  /** Outside the Bootstrap branches each generator returns the comment followed by the generic body. */
  lemma {:induction false} GenericShape(k: ComponentKind, framework: string, year: nat)
    requires !UsesBootstrap(k, framework)
    ensures Generator(k, framework, year) == Comment(k, framework) + Body(k, year)
  {
  }

  /** Text that starts with a comment starts with `<!--`. */
  lemma {:induction false} CommentOpens(k: ComponentKind, framework: string, rest: string)
    ensures IsPrefix(Comment(k, framework), Comment(k, framework) + rest)
    ensures IsPrefix("<!--", Comment(k, framework) + rest)
  {
    var c := Comment(k, framework);
    assert (c + rest)[..|c|] == c;
    assert c == "<!-- " + (Label(k) + " Component for " + framework + " -->");
    assert (c + rest)[..4] == c[..4] == "<!--";
  }

  /**
   * A snippet opens with an HTML comment exactly when it is not Bootstrap
   * markup, and that comment names the archetype and the framework.
   */
  lemma {:induction false} CommentUnlessBootstrap(k: ComponentKind, framework: string, year: nat)
    ensures IsPrefix("<!--", Generator(k, framework, year)) <==> !UsesBootstrap(k, framework)
    ensures !UsesBootstrap(k, framework) ==> IsPrefix(Comment(k, framework), Generator(k, framework, year))
  {
    if UsesBootstrap(k, framework) {
      BootstrapShape(k, framework, year);
      var m := BootstrapMarkup(k);
      assert "<!--"[1] == '!';
      NotPrefixAt("<!--", m, 1);
    } else {
      GenericShape(k, framework, year);
      CommentOpens(k, framework, Body(k, year));
    }
  }

  /**
   * Outside the Bootstrap branches the framework only appears in the opening
   * comment: what follows the comment is the same for every framework.
   */
  lemma {:induction false} FrameworkOnlyInComment(k: ComponentKind, fw1: string, fw2: string, year: nat)
    requires !UsesBootstrap(k, fw1) && !UsesBootstrap(k, fw2)
    ensures Generator(k, fw1, year)[|Comment(k, fw1)|..] == Generator(k, fw2, year)[|Comment(k, fw2)|..]
  {
    GenericShape(k, fw1, year);
    GenericShape(k, fw2, year);
    assert Generator(k, fw1, year)[|Comment(k, fw1)|..] == Body(k, year);
    assert Generator(k, fw2, year)[|Comment(k, fw2)|..] == Body(k, year);
  }

  /** A position where the labels of two different archetypes differ. */
  function LabelDifference(k1: ComponentKind, k2: ComponentKind): (j: nat)
    requires k1 != k2
    ensures j < |Label(k1)| && j < |Label(k2)| && Label(k1)[j] != Label(k2)[j]
  {
    if (k1 == Footer && k2 == Form) || (k1 == Form && k2 == Footer) then 2 else 0
  }

  /** The label sits right after the comment's opening `<!-- `. */
  lemma {:induction false} CommentSpellsLabel(k: ComponentKind, framework: string, rest: string, j: nat)
    requires j < |Label(k)|
    ensures (Comment(k, framework) + rest)[1] == '!'
    ensures (Comment(k, framework) + rest)[5 + j] == Label(k)[j]
  {
  }

  /** Two generic snippets differ where their labels do. */
  lemma {:induction false} DistinctGeneric(k1: ComponentKind, k2: ComponentKind, framework: string, year: nat)
    requires k1 != k2 && !UsesBootstrap(k1, framework) && !UsesBootstrap(k2, framework)
    ensures Generator(k1, framework, year) != Generator(k2, framework, year)
  {
    GenericShape(k1, framework, year);
    GenericShape(k2, framework, year);
    var j := LabelDifference(k1, k2);
    CommentSpellsLabel(k1, framework, Body(k1, year), j);
    CommentSpellsLabel(k2, framework, Body(k2, year), j);
  }

  /** A generic snippet is never Bootstrap markup. */
  lemma {:induction false} DistinctMixed(k1: ComponentKind, k2: ComponentKind, framework: string, year: nat)
    requires !UsesBootstrap(k1, framework) && UsesBootstrap(k2, framework)
    ensures Generator(k1, framework, year) != Generator(k2, framework, year)
  {
    GenericShape(k1, framework, year);
    CommentSpellsLabel(k1, framework, Body(k1, year), 0);
    BootstrapShape(k2, framework, year);
  }

  /** The three Bootstrap snippets differ from one another. */
  lemma {:induction false} BootstrapMarkupsDiffer(k1: ComponentKind, k2: ComponentKind)
    requires k1 != k2 && HasBootstrapVariant(k1) && HasBootstrapVariant(k2)
    ensures BootstrapMarkup(k1) != BootstrapMarkup(k2)
  {
    var m1, m2 := BootstrapMarkup(k1), BootstrapMarkup(k2);
    if k1 == Navbar || k2 == Navbar {
      assert NavbarBootstrap[1] == 'n' && CardBootstrap[1] == 'd' && ModalBootstrap[1] == 'd';
      assert m1[1] != m2[1];
    } else {
      assert CardBootstrap[12] == 'c' && ModalBootstrap[12] == 'm';
      assert m1[12] != m2[12];
    }
  }

  /** In their Bootstrap branches, different archetypes give different snippets. */
  lemma {:induction false} DistinctBootstrap(k1: ComponentKind, k2: ComponentKind, framework: string, year: nat)
    requires k1 != k2 && UsesBootstrap(k1, framework) && UsesBootstrap(k2, framework)
    ensures Generator(k1, framework, year) != Generator(k2, framework, year)
  {
    BootstrapShape(k1, framework, year);
    BootstrapShape(k2, framework, year);
    BootstrapMarkupsDiffer(k1, k2);
  }

  /** For a given framework, the seven archetypes give seven different snippets. */
  lemma {:induction false} DistinctArchetypes(k1: ComponentKind, k2: ComponentKind, framework: string, year: nat)
    requires k1 != k2
    ensures Generator(k1, framework, year) != Generator(k2, framework, year)
  {
    if !UsesBootstrap(k1, framework) && !UsesBootstrap(k2, framework) {
      DistinctGeneric(k1, k2, framework, year);
    } else if !UsesBootstrap(k1, framework) {
      DistinctMixed(k1, k2, framework, year);
    } else if !UsesBootstrap(k2, framework) {
      DistinctMixed(k2, k1, framework, year);
    } else {
      DistinctBootstrap(k1, k2, framework, year);
    }
  }

  /** `generateComponentTemplate`: one write of the snippet to the output path. */
  function ComponentTemplate(componentType: string, framework: string, outputPath: string, year: nat): (w: FileWrite)
    ensures w.path == outputPath
    ensures w.content == ComponentHTML(componentType, framework, year)
  {
    FileWrite(outputPath, ComponentHTML(componentType, framework, year))
  }
}
