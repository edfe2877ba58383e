/**
 * Project scaffolding (src/generators/boilerplate.ts): the plan of
 * directories, files and the `git init` call that `generateBoilerplate`
 * carries out, and the texts it writes — the index page, the stylesheet,
 * the script, package.json, .gitignore and the README. Paths in the plan are
 * relative to the project directory.
 */
module Boilerplate {
  import opened Optional
  import opened Text
  import opened Files
  import Meta
  import Theme
  import Icons
  import Page
  import Json

  /** The generator's options, less the project path the plan is relative to. */
  datatype BoilerplateOptions = BoilerplateOptions(
    framework: string,
    projectName: string,
    withJs: bool,
    withGit: bool,
    theme: string,
    icons: string)

  /** One effect of the generator, in the order it happens. */
  datatype Step =
    | MakeDirectory(dir: string)
    | Write(file: FileWrite)
    | GitInit

  const BootstrapCdn :=
    @"<link href=""https://cdn.jsdelivr.net/npm/bootstrap@5.3.2/dist/css/bootstrap.min.css"" rel=""stylesheet"">" + "\n" +
    @"    <script src=""https://cdn.jsdelivr.net/npm/bootstrap@5.3.2/dist/js/bootstrap.bundle.min.js""></script>"
  const TailwindCdn :=
    @"<script src=""https://cdn.tailwindcss.com""></script>"
  const MaterializeCdn :=
    @"<link rel=""stylesheet"" href=""https://cdnjs.cloudflare.com/ajax/libs/materialize/1.0.0/css/materialize.min.css"">" + "\n" +
    @"    <script src=""    https://cdnjs.cloudflare.com/ajax/libs/materialize/1.0.0/js/materialize.min.js""></script>"
  const SkeletonCdn :=
    @"<link rel=""stylesheet"" href=""https://cdnjs.cloudflare.com/ajax/libs/skeleton/2.0.4/skeleton.min.css"">"
  const DaisyuiCdn :=
    @"<link href=""https://cdn.jsdelivr.net/npm/daisyui@4.4.19/dist/full.min.css"" rel=""stylesheet"" type=""text/css"" />" + "\n" +
    @"    <script src=""https://cdn.tailwindcss.com""></script>"

  /**
   * `getFrameworkCDN`: the CDN tags of the five CDN frameworks; nothing for
   * vanilla, html5 or any other name.
   */
  function FrameworkCDN(framework: string): (r: string)
    ensures r == "" <==> !Page.HasCdn(framework)
  {
    match framework
    case "bootstrap" => BootstrapCdn
    case "tailwind" => TailwindCdn
    case "materialize" => MaterializeCdn
    case "skeleton" => SkeletonCdn
    case "daisyui" => DaisyuiCdn
    case _ => ""
  }

  /** The values `generateIndexHTML` interpolates. */
  datatype IndexData = IndexData(
    metaTags: string,
    faviconLinks: string,
    iconCDN: string,
    iconComment: string,
    projectName: string)

  /** The line break and indentation between head entries. */
  const HeadSeparator := "\n    "
  const MainCssLink :=
    @"<link rel=""stylesheet"" href=""assets/css/main.css"">"
  const MainJsScript :=
    @"<script src=""assets/js/main.js""></script>"
  const IndexStart :=
    @"<!DOCTYPE html>
<html lang=""en"">
<head>
    "
  const HeaderStart :=
    @"
</head>
<body>
    <div class=""container"">
        <header>
            <h1>Welcome to "
  const TaglineStart :=
    @"</h1>
            <p>Built with "
  const HeroStart :=
    @"</p>
        </header>

        <main>
            <section class=""hero"">
                <h2>Get Started</h2>
                <p>Edit index.html to get started!</p>
                "
  const IndexFooter :=
    @"
            </section>
        </main>

        <footer>
            <p>Generated with <a href=""https://github.com/philwamba/boil"" target=""_blank"">Boil CLI</a></p>
        </footer>
    </div>

    "
  const IndexClose :=
    @"
</body>
</html>
"

  /** The pieces of the index page, in order. */
  function IndexParts(framework: string, data: IndexData): seq<string> {
    [IndexStart, data.metaTags, HeadSeparator, data.faviconLinks, HeadSeparator, FrameworkCDN(framework),
     HeadSeparator, MainCssLink, HeadSeparator, data.iconCDN, HeaderStart, data.projectName, TaglineStart,
     Capitalize(framework), HeroStart, data.iconComment, IndexFooter, MainJsScript, IndexClose]
  }

  /**
   * `generateIndexHTML`: the head holds the meta tags, the favicon links,
   * the framework's CDN tags and then the project stylesheet, in that order;
   * the page names the project and always loads the project script.
   */
  function IndexHTML(framework: string, data: IndexData): (r: string)
    ensures IsPrefix(Concat([IndexStart, data.metaTags, HeadSeparator, data.faviconLinks, HeadSeparator,
                             FrameworkCDN(framework), HeadSeparator, MainCssLink]), r)
    ensures Contains(r, MainJsScript)
    ensures Contains(r, data.projectName)
    ensures Contains(r, data.iconCDN) && Contains(r, data.iconComment)
  {
    var parts := IndexParts(framework, data);
    assert parts[..8] == [IndexStart, data.metaTags, HeadSeparator, data.faviconLinks, HeadSeparator,
                          FrameworkCDN(framework), HeadSeparator, MainCssLink];
    ConcatPrefix(parts, 8);
    ConcatContains(parts, 17);
    ConcatContains(parts, 11);
    ConcatContains(parts, 9);
    ConcatContains(parts, 15);
    Concat(parts)
  }
  const ResetCSS :=
    @"/* Reset */
* {
  margin: 0;
  padding: 0;
  box-sizing: border-box;
}

"
  const BaseStyles :=
    @"

/* Base Styles */
body {
  font-family: -apple-system, BlinkMacSystemFont, 'Segoe UI', Roboto, Oxygen, Ubuntu, Cantarell, sans-serif;
  line-height: 1.6;
  padding: 2rem;
}

.container {
  max-width: 1200px;
  margin: 0 auto;
}

/* Header */
header {
  text-align: center;
  padding: 3rem 0;
  border-bottom: 2px solid var(--border-color);
}

header h1 {
  font-size: 3rem;
  color: var(--text-primary);
  margin-bottom: 0.5rem;
}

header p {
  color: var(--text-secondary);
  font-size: 1.25rem;
}

/* Main */
main {
  padding: 4rem 0;
}

.hero {
  text-align: center;
  padding: 2rem;
  background: var(--bg-secondary);
  border-radius: 8px;
}

.hero h2 {
  font-size: 2rem;
  color: var(--accent-color);
  margin-bottom: 1rem;
}

/* Footer */
footer {
  text-align: center;
  padding: 2rem 0;
  border-top: 2px solid var(--border-color);
  color: var(--text-secondary);
}

footer a {
  color: var(--accent-color);
  text-decoration: none;
}

footer a:hover {
  color: var(--accent-hover);
}
"

  /** `generateVanillaCSS`: a reset, the theme stylesheet, then base styles for the page. */
  function VanillaCSS(theme: string): (r: string)
    ensures IsPrefix(ResetCSS, r)
    ensures Contains(r, Theme.ThemeCSS(theme))
  {
    ContainsInfix(ResetCSS, Theme.ThemeCSS(theme), BaseStyles);
    ResetCSS + Theme.ThemeCSS(theme) + BaseStyles
  }

  const CustomStylesNote :=
    @"

/* Add your custom styles here */
"

  /** `getFrameworkCSS`: a comment naming the framework, then the theme stylesheet. */
  function FrameworkCSS(framework: string, theme: string): (r: string)
    ensures IsPrefix("/* " + Capitalize(framework) + " Custom Styles */", r)
    ensures Contains(r, Theme.ThemeCSS(theme))
  {
    var head := "/* " + Capitalize(framework) + " Custom Styles */\n\n";
    ContainsInfix(head, Theme.ThemeCSS(theme), CustomStylesNote);
    head + Theme.ThemeCSS(theme) + CustomStylesNote
  }

  /** The stylesheet choice: the full vanilla sheet for vanilla and html5, the short one otherwise. */
  function MainCss(framework: string, theme: string): (r: string)
    ensures framework == "vanilla" || framework == "html5" ==> r == VanillaCSS(theme)
    ensures framework != "vanilla" && framework != "html5" ==> r == FrameworkCSS(framework, theme)
    ensures Contains(r, Theme.ThemeCSS(theme))
  {
    if framework == "vanilla" || framework == "html5" then VanillaCSS(theme) else FrameworkCSS(framework, theme)
  }

  const ScriptIntro := " - Generated with Boil CLI\n\n"
  const ScriptOutro :=
    @"

// Your custom JavaScript here
console.log('Welcome to your new project!');
"

  /** `generateJavaScript`: a comment with the year, then the theme toggle script. */
  function JavaScript(year: nat): (r: string)
    ensures IsPrefix("// " + NatToString(year), r)
    ensures Contains(r, Theme.ThemeToggleScript())
  {
    var parts := ["// ", NatToString(year), ScriptIntro, Theme.ThemeToggleScript(), ScriptOutro];
    assert parts[..2] == ["// ", NatToString(year)];
    ConcatPair("// ", NatToString(year));
    ConcatPrefix(parts, 2);
    ConcatContains(parts, 3);
    Concat(parts)
  }

  /** The description used in the meta tags and in package.json. */
  function Description(projectName: string): string {
    projectName + " - Built with Boil CLI"
  }

  /** `JSON.stringify(packageJson, null, 2)`. */
  function PackageJson(projectName: string, framework: string): (r: string)
    ensures IsPrefix("{\n  \"name\": " + Json.Quote(projectName), r)
  {
    "{\n  \"name\": " + Json.Quote(projectName)
    + ",\n  \"version\": \"1.0.0\",\n  \"description\": " + Json.Quote(Description(projectName))
    + ",\n  \"main\": \"index.html\",\n  \"scripts\": {\n    \"dev\": \"boil preview\"\n  },\n  \"keywords\": [\n    "
    + Json.Quote(framework)
    + "\n  ],\n  \"author\": \"\",\n  \"license\": \"MIT\"\n}"
  }

  const Gitignore :=
    @"node_modules/
.DS_Store
*.log
.env
dist/
"

  const ReadmeIntro :=
    @"

Generated with [Boil CLI](https://github.com/philwamba/boil)

## Framework: "
  const GettingStartedHeading :=
    @"

## Getting Started

"

  const InstallLine := "1. Install dependencies: `npm install`\n"
  const PreviewStep := ". Preview: `boil preview`"

  /**
   * The "Getting Started" list: an install step and the preview as step 2
   * with JavaScript, only the preview as step 1 without it.
   */
  function GettingStarted(withJs: bool): (r: string)
    ensures IsPrefix(InstallLine, r) <==> withJs
    ensures IsSuffix(PreviewStep, r) && |r| > |PreviewStep|
    ensures r[|r| - |PreviewStep| - 1] == (if withJs then '2' else '1')
  {
    (if withJs then InstallLine else "") + (if withJs then "2" else "1") + PreviewStep
  }
  const StructureHeading :=
    @"

## Project Structure

```
"
  const TreeStart :=
    @"/
├── assets/
│   ├── css/
│   │   └── main.css
│   ├── js/"

  const ScriptEntry := "\n│   │   └── main.js"
  const TreeEnd :=
    @"
│   └── images/
└── index.html
```

## License

MIT
"

  /** The project tree lists main.js under js/ exactly with JavaScript. */
  function ScriptTreeEntry(withJs: bool): (r: string)
    ensures r != "" <==> withJs
  {
    if withJs then ScriptEntry else ""
  }

  /** The pieces of the README, in order. */
  function ReadmeParts(o: BoilerplateOptions): seq<string> {
    ["# ", o.projectName, ReadmeIntro, Capitalize(o.framework), GettingStartedHeading, GettingStarted(o.withJs),
     StructureHeading, o.projectName, TreeStart, ScriptTreeEntry(o.withJs), TreeEnd]
  }

  /** The README: titled with the project name, with the getting-started list and the project tree. */
  function Readme(o: BoilerplateOptions): (r: string)
    ensures IsPrefix("# " + o.projectName, r)
    ensures Contains(r, GettingStarted(o.withJs))
    ensures Contains(r, ScriptTreeEntry(o.withJs))
  {
    var parts := ReadmeParts(o);
    assert parts[..2] == ["# ", o.projectName];
    ConcatPair("# ", o.projectName);
    ConcatPrefix(parts, 2);
    ConcatContains(parts, 5);
    ConcatContains(parts, 9);
    Concat(parts)
  }

  /** The meta options the generator passes: the project as title and keywords, no author. */
  function MetaOptionsFor(o: BoilerplateOptions): Meta.MetaOptions {
    Meta.MetaOptions(
      o.projectName, Description(o.projectName), Some([o.framework, "frontend", "boilerplate"]), Some(""),
      None, None, None, None)
  }

  /** The values interpolated into the index page, given the rendered meta tags. */
  function IndexDataFor(o: BoilerplateOptions, metaTags: string): IndexData {
    IndexData(metaTags, Meta.FaviconLinks(), Icons.GetIconCDN(o.icons), Icons.GetIconsComment(o.icons), o.projectName)
  }

  /** The index page the generator writes. */
  function IndexFor(o: BoilerplateOptions): string {
    IndexHTML(o.framework, IndexDataFor(o, Meta.MetaTagsHtml(MetaOptionsFor(o))))
  }

  /** The texts of the files the generator can write. */
  datatype Contents = Contents(index: string, css: string, script: string, packageJson: string, readme: string)

  /** The texts for given options; `year` stands for `new Date().getFullYear()`. */
  function ContentsFor(o: BoilerplateOptions, year: nat): Contents {
    Contents(IndexFor(o), MainCss(o.framework, o.theme), JavaScript(year),
             PackageJson(o.projectName, o.framework), Readme(o))
  }

  /** The steps taken whatever the options. */
  function FixedSteps(c: Contents): seq<Step> {
    [MakeDirectory(".")]
    + [MakeDirectory("assets")]
    + [MakeDirectory("assets/css")]
    + [MakeDirectory("assets/js")]
    + [MakeDirectory("assets/images")]
    + [Write(FileWrite("index.html", c.index))]
    + [Write(FileWrite("assets/css/main.css", c.css))]
  }

  /** The script and package.json, written only with JavaScript. */
  function ScriptSteps(o: BoilerplateOptions, c: Contents): seq<Step> {
    if o.withJs then [Write(FileWrite("assets/js/main.js", c.script)), Write(FileWrite("package.json", c.packageJson))]
    else []
  }

  /** .gitignore and `git init`, only with Git. */
  function GitSteps(o: BoilerplateOptions): seq<Step> {
    if o.withGit then [Write(FileWrite(".gitignore", Gitignore)), GitInit] else []
  }

  /** The steps in order, for given texts. */
  function Steps(o: BoilerplateOptions, c: Contents): seq<Step> {
    FixedSteps(c) + ScriptSteps(o, c) + GitSteps(o) + [Write(FileWrite("README.md", c.readme))]
  }

  /** `generateBoilerplate`, step by step: what it creates, writes and runs, in order. */
  function Plan(o: BoilerplateOptions, year: nat): seq<Step> {
    Steps(o, ContentsFor(o, year))
  }

  /**
   * `generateBoilerplate`: builds the plan in the order the generator acts.
   * The outcome of `git init` is not consulted, so a failing `git init`
   * leaves the remaining steps in place.
   */
  method GenerateBoilerplate(o: BoilerplateOptions, year: nat) returns (plan: seq<Step>)
    ensures plan == Plan(o, year)
  {
    var index := RenderIndex(o);
    var c := Contents(index, MainCss(o.framework, o.theme), JavaScript(year),
                      PackageJson(o.projectName, o.framework), Readme(o));
    plan := PushSteps(o, c);
  }

  /** The steps in the order the generator takes them, for texts already rendered. */
  method PushSteps(o: BoilerplateOptions, c: Contents) returns (plan: seq<Step>)
    ensures plan == Steps(o, c)
  {
    plan := [MakeDirectory(".")];
    plan := plan + [MakeDirectory("assets")];
    plan := plan + [MakeDirectory("assets/css")];
    plan := plan + [MakeDirectory("assets/js")];
    plan := plan + [MakeDirectory("assets/images")];
    plan := plan + [Write(FileWrite("index.html", c.index))];
    plan := plan + [Write(FileWrite("assets/css/main.css", c.css))];
    assert plan == FixedSteps(c);
    if o.withJs {
      plan := plan + [Write(FileWrite("assets/js/main.js", c.script)), Write(FileWrite("package.json", c.packageJson))];
    }
    assert plan == FixedSteps(c) + ScriptSteps(o, c);
    if o.withGit {
      plan := plan + [Write(FileWrite(".gitignore", Gitignore)), GitInit];
    }
    assert plan == FixedSteps(c) + ScriptSteps(o, c) + GitSteps(o);
    plan := plan + [Write(FileWrite("README.md", c.readme))];
  }

  /** The index page, with its meta tags built by `generateMetaTags`. */
  method RenderIndex(o: BoilerplateOptions) returns (index: string)
    ensures index == IndexFor(o)
    ensures Contains(index, MainJsScript) && Contains(index, o.projectName)
  {
    var metaTags := Meta.GenerateMetaTags(MetaOptionsFor(o));
    index := IndexHTML(o.framework, IndexDataFor(o, metaTags));
  }

  /** The paths the plan writes. */
  function Written(plan: seq<Step>): set<string> {
    if plan == [] then {}
    else Written(plan[..|plan| - 1]) + (if plan[|plan| - 1].Write? then {plan[|plan| - 1].file.path} else {})
  }

  /** The directories the plan creates. */
  function Created(plan: seq<Step>): set<string> {
    if plan == [] then {}
    else Created(plan[..|plan| - 1]) + (if plan[|plan| - 1].MakeDirectory? then {plan[|plan| - 1].dir} else {})
  }

  /** Written and Created distribute over running one plan after another. */
  lemma {:induction false} AppendSteps(a: seq<Step>, b: seq<Step>)
    ensures Written(a + b) == Written(a) + Written(b)
    ensures Created(a + b) == Created(a) + Created(b)
    decreases |b|
  {
    if b == [] {
      assert a + b == a;
    } else {
      assert (a + b)[..|a + b| - 1] == a + b[..|b| - 1];
      AppendSteps(a, b[..|b| - 1]);
    }
  }

  /** A one-step plan writes or creates what that step names. */
  lemma OneStep(s: Step)
    ensures Written([s]) == (if s.Write? then {s.file.path} else {})
    ensures Created([s]) == (if s.MakeDirectory? then {s.dir} else {})
  {
    assert [s][..0] == [];
  }

  /** The fixed steps write index.html and main.css, create the five directories, and do not run `git init`. */
  lemma {:induction false} FixedStepsWrite(c: Contents)
    ensures Written(FixedSteps(c)) == {"index.html", "assets/css/main.css"}
    ensures Created(FixedSteps(c)) == {".", "assets", "assets/css", "assets/js", "assets/images"}
    ensures GitInit !in FixedSteps(c)
  {
    var d0, d1, d2, d3, d4 := MakeDirectory("."), MakeDirectory("assets"), MakeDirectory("assets/css"),
      MakeDirectory("assets/js"), MakeDirectory("assets/images");
    var w0, w1 := Write(FileWrite("index.html", c.index)), Write(FileWrite("assets/css/main.css", c.css));
    OneStep(d0); OneStep(d1); OneStep(d2); OneStep(d3); OneStep(d4); OneStep(w0); OneStep(w1);
    AppendSteps([d0], [d1]);
    AppendSteps([d0] + [d1], [d2]);
    AppendSteps([d0] + [d1] + [d2], [d3]);
    AppendSteps([d0] + [d1] + [d2] + [d3], [d4]);
    AppendSteps([d0] + [d1] + [d2] + [d3] + [d4], [w0]);
    AppendSteps([d0] + [d1] + [d2] + [d3] + [d4] + [w0], [w1]);
  }

  /** A two-step plan writes or creates what its steps name. */
  lemma {:induction false} TwoSteps(s: Step, t: Step)
    ensures Written([s, t]) == Written([s]) + Written([t])
    ensures Created([s, t]) == Created([s]) + Created([t])
  {
    assert [s, t] == [s] + [t];
    AppendSteps([s], [t]);
  }

  /** The script steps write main.js and package.json with JavaScript and nothing otherwise. */
  lemma {:induction false} ScriptStepsWrite(o: BoilerplateOptions, c: Contents)
    ensures Written(ScriptSteps(o, c)) == (if o.withJs then {"assets/js/main.js", "package.json"} else {})
    ensures Created(ScriptSteps(o, c)) == {}
    ensures GitInit !in ScriptSteps(o, c)
  {
    if o.withJs {
      var a, b := Write(FileWrite("assets/js/main.js", c.script)), Write(FileWrite("package.json", c.packageJson));
      TwoSteps(a, b);
      OneStep(a);
      OneStep(b);
    }
  }

  /** The Git steps write .gitignore and run `git init` with Git, and do nothing otherwise. */
  lemma {:induction false} GitStepsWrite(o: BoilerplateOptions)
    ensures Written(GitSteps(o)) == (if o.withGit then {".gitignore"} else {})
    ensures Created(GitSteps(o)) == {}
    ensures GitInit in GitSteps(o) <==> o.withGit
  {
    if o.withGit {
      var a := Write(FileWrite(".gitignore", Gitignore));
      TwoSteps(a, GitInit);
      OneStep(a);
      OneStep(GitInit);
    }
  }

  /** What the whole plan writes and creates, for any texts. */
  lemma {:induction false} OptionalSteps(o: BoilerplateOptions, c: Contents)
    ensures Written(Steps(o, c)) ==
      {"index.html", "assets/css/main.css"}
      + (if o.withJs then {"assets/js/main.js", "package.json"} else {})
      + (if o.withGit then {".gitignore"} else {})
      + {"README.md"}
    ensures Created(Steps(o, c)) == {".", "assets", "assets/css", "assets/js", "assets/images"}
    ensures GitInit in Steps(o, c) <==> o.withGit
  {
    var f, js, git := FixedSteps(c), ScriptSteps(o, c), GitSteps(o);
    var rd := Write(FileWrite("README.md", c.readme));
    FixedStepsWrite(c);
    ScriptStepsWrite(o, c);
    GitStepsWrite(o);
    OneStep(rd);
    AppendSteps(f, js);
    AppendSteps(f + js, git);
    AppendSteps(f + js + git, [rd]);
  }

  /**
   * Whatever the texts, the project directory and its four asset directories
   * are created and nothing else, and index.html, main.css and README.md are
   * always written.
   */
  lemma {:induction false} AlwaysCreated(o: BoilerplateOptions, c: Contents)
    ensures Created(Steps(o, c)) == {".", "assets", "assets/css", "assets/js", "assets/images"}
    ensures {"index.html", "assets/css/main.css", "README.md"} <= Written(Steps(o, c))
  {
    OptionalSteps(o, c);
  }

  /** The script and package.json are written exactly when JavaScript is asked for. */
  lemma {:induction false} ScriptFilesIff(o: BoilerplateOptions, c: Contents)
    ensures "assets/js/main.js" in Written(Steps(o, c)) <==> o.withJs
    ensures "package.json" in Written(Steps(o, c)) <==> o.withJs
  {
    OptionalSteps(o, c);
    assert "assets/js/main.js" != "index.html" && "assets/js/main.js" != "assets/css/main.css";
    assert "assets/js/main.js" != "README.md" && "assets/js/main.js" != ".gitignore";
    assert "package.json" != "index.html" && "package.json" != "assets/css/main.css";
    assert "package.json" != "README.md" && "package.json" != ".gitignore";
  }

  /**
   * .gitignore is written and `git init` run exactly when Git is asked for,
   * and the README is written last, after `git init`.
   */
  lemma {:induction false} GitStepsIff(o: BoilerplateOptions, c: Contents)
    ensures ".gitignore" in Written(Steps(o, c)) <==> o.withGit
    ensures GitInit in Steps(o, c) <==> o.withGit
    ensures Steps(o, c)[|Steps(o, c)| - 1] == Write(FileWrite("README.md", c.readme))
  {
    OptionalSteps(o, c);
    assert ".gitignore" != "index.html" && ".gitignore" != "assets/css/main.css";
    assert ".gitignore" != "README.md" && ".gitignore" != "assets/js/main.js" && ".gitignore" != "package.json";
  }

  /**
   * The five directories come first, in order, then the index page, then the
   * stylesheet (whose text MainCss chooses).
   */
  lemma {:induction false} LeadingSteps(o: BoilerplateOptions, c: Contents)
    ensures |Steps(o, c)| >= 8
    ensures Steps(o, c)[..5] == [MakeDirectory("."), MakeDirectory("assets"), MakeDirectory("assets/css"),
                                 MakeDirectory("assets/js"), MakeDirectory("assets/images")]
    ensures Steps(o, c)[5] == Write(FileWrite("index.html", c.index))
    ensures Steps(o, c)[6] == Write(FileWrite("assets/css/main.css", c.css))
  {
    assert Steps(o, c)[..7] == FixedSteps(c);
  }

  /**
   * The index page always loads assets/js/main.js, which the plan writes only
   * with JavaScript: without it the page refers to a script that is not there.
   */
  lemma {:induction false} ScriptReferencedWithoutJs(o: BoilerplateOptions, year: nat)
    requires !o.withJs
    ensures Contains(IndexFor(o), MainJsScript)
    ensures "assets/js/main.js" !in Written(Plan(o, year))
  {
    ScriptFilesIff(o, ContentsFor(o, year));
  }

  /**
   * The index page's meta tags: the keywords tag lists the framework,
   * "frontend" and "boilerplate"; there is no author tag and no image tag,
   * so there are thirteen tags.
   */
  lemma {:induction false} IndexMetaTags(o: BoilerplateOptions)
    ensures Meta.Keywords(o.framework + ", frontend, boilerplate") in Meta.TagList(Meta.WithDefaults(MetaOptionsFor(o)))
    ensures forall t | t in Meta.TagList(Meta.WithDefaults(MetaOptionsFor(o))) :: !t.Author?
    ensures |Meta.TagList(Meta.WithDefaults(MetaOptionsFor(o)))| == 13
  {
    IndexSettings(o);
    IndexTags(Meta.WithDefaults(MetaOptionsFor(o)), o.framework);
  }

  /** The index page asks for three keywords, an empty author and no image. */
  lemma IndexSettings(o: BoilerplateOptions)
    ensures Meta.WithDefaults(MetaOptionsFor(o)).keywords == [o.framework, "frontend", "boilerplate"]
    ensures Meta.WithDefaults(MetaOptionsFor(o)).author == ""
    ensures Meta.WithDefaults(MetaOptionsFor(o)).ogImage == ""
  {
  }

  /** With those settings: a keywords tag naming the framework, no author tag, thirteen tags. */
  lemma {:induction false} IndexTags(s: Meta.Settings, framework: string)
    requires s.keywords == [framework, "frontend", "boilerplate"] && s.author == "" && s.ogImage == ""
    ensures Meta.Keywords(framework + ", frontend, boilerplate") in Meta.TagList(s)
    ensures forall t | t in Meta.TagList(s) :: !t.Author?
    ensures |Meta.TagList(s)| == 13
  {
    KeywordsText(s, framework);
    Meta.KeywordsTag(s);
    Meta.AuthorTag(s);
  }

  /** The three keywords joined with ", ". */
  lemma {:induction false} KeywordsText(s: Meta.Settings, framework: string)
    requires s.keywords == [framework, "frontend", "boilerplate"]
    ensures Join(s.keywords, ", ") == framework + ", frontend, boilerplate"
  {
    JoinThree(framework, "frontend", "boilerplate", ", ");
    KeywordsLiteral(framework);
  }

  lemma KeywordsLiteral(framework: string)
    ensures framework + ", " + "frontend" + ", " + "boilerplate" == framework + ", frontend, boilerplate"
  {
    assert ", " + "frontend" + ", " + "boilerplate" == ", frontend, boilerplate";
  }
}
