/**
 * The colour-scheme stylesheet and the toggle script every generated
 * project receives (src/utils/theme-generator.ts). The stylesheet always
 * holds the light `:root` palette, the two `[data-theme]` override blocks and
 * the body rule; the `prefers-color-scheme: dark` media block is added only
 * for the "dark" and "auto" themes.
 */
module Theme {
  import opened Text

  /** The light palette on `:root`, present for every theme. */
  const LightRoot :=
    @":root {
  /* Light mode colors */
  --bg-primary: #ffffff;
  --bg-secondary: #f3f4f6;
  --text-primary: #111827;
  --text-secondary: #6b7280;
  --border-color: #e5e7eb;
  --accent-color: #3b82f6;
  --accent-hover: #2563eb;
}"

  /**
   * The dark palette under `@media (prefers-color-scheme: dark)`, with the
   * line breaks the template puts around it. Its first two characters are a
   * separate piece so that proofs can see how the block opens.
   */
  const DarkMedia :=
    "\n@" + @"media (prefers-color-scheme: dark) {
  :root {
    /* Dark mode colors */
    --bg-primary: #111827;
    --bg-secondary: #1f2937;
    --text-primary: #f9fafb;
    --text-secondary: #9ca3af;
    --border-color: #374151;
    --accent-color: #60a5fa;
    --accent-hover: #3b82f6;
  }
}" + "\n"

  /** The `[data-theme="dark"]`, `[data-theme="light"]` and body rules, present for every theme. */
  const ThemeRules :=
    @"[data-theme=""dark""] {
  --bg-primary: #111827;
  --bg-secondary: #1f2937;
  --text-primary: #f9fafb;
  --text-secondary: #9ca3af;
  --border-color: #374151;
  --accent-color: #60a5fa;
  --accent-hover: #3b82f6;
}

[data-theme=""light""] {
  --bg-primary: #ffffff;
  --bg-secondary: #f3f4f6;
  --text-primary: #111827;
  --text-secondary: #6b7280;
  --border-color: #e5e7eb;
  --accent-color: #3b82f6;
  --accent-hover: #2563eb;
}

body {
  background-color: var(--bg-primary);
  color: var(--text-primary);
  transition: background-color 0.3s ease, color 0.3s ease;
}"

  /** The comparison that switches the media block on. */
  predicate HasDarkBlock(theme: string) {
    theme == "dark" || theme == "auto"
  }

  /** The light block and the blank line after it. */
  function Opening(): string {
    LightRoot + "\n\n"
  }

  /** The blank line before the rules, and the rules. */
  function Closing(): string {
    "\n\n" + ThemeRules
  }

  /**
   * `generateThemeCSS(theme = 'auto')`: the light block, a blank line, the
   * media block when the theme asks for it, a blank line, the rules.
   */
  function ThemeCSS(theme: string := "auto"): (r: string)
    ensures IsPrefix(LightRoot, r)
    ensures IsSuffix(ThemeRules, r)
    ensures |r| == |LightRoot| + 4 + |ThemeRules| + (if HasDarkBlock(theme) then |DarkMedia| else 0)
  {
    Opening() + (if HasDarkBlock(theme) then DarkMedia else "") + Closing()
  }

  /** Where the media block goes: right after the light block and its blank line. */
  function MediaOffset(): nat {
    |Opening()|
  }

  /** In `a + b + c`, the text from the end of `a` on starts with `b`. */
  lemma {:induction false} MiddleStartsTail(a: string, b: string, c: string)
    ensures (a + b + c)[|a|..] == b + c
    ensures IsPrefix(b, (a + b + c)[|a|..])
  {
    assert (a + b + c)[|a|..] == b + c;
    assert (b + c)[..|b|] == b;
  }

  /** With "dark" or "auto" the media block follows the light block. */
  lemma {:induction false} DarkBlockPresent(theme: string)
    requires HasDarkBlock(theme)
    ensures IsPrefix(DarkMedia, ThemeCSS(theme)[MediaOffset()..])
  {
    assert ThemeCSS(theme) == Opening() + DarkMedia + Closing();
    MiddleStartsTail(Opening(), DarkMedia, Closing());
  }

  /** With any other theme the rules follow the light block directly. */
  lemma {:induction false} DarkBlockAbsent(theme: string)
    requires !HasDarkBlock(theme)
    ensures !IsPrefix(DarkMedia, ThemeCSS(theme)[MediaOffset()..])
  {
    assert ThemeCSS(theme) == Opening() + "" + Closing();
    MiddleStartsTail(Opening(), "", Closing());
    assert ThemeCSS(theme)[MediaOffset()..][1] == '\n';
    assert DarkMedia[1] == '@';
  }

  /**
   * The media block opens the text that follows the light block exactly when
   * the theme is "dark" or "auto"; "light" and any other value leave it out.
   */
  lemma {:induction false} DarkBlockIff(theme: string)
    ensures HasDarkBlock(theme) <==> IsPrefix(DarkMedia, ThemeCSS(theme)[MediaOffset()..])
  {
    if HasDarkBlock(theme) {
      DarkBlockPresent(theme);
    } else {
      DarkBlockAbsent(theme);
    }
  }

  /**
   * "dark" and "auto" give the same stylesheet; every other theme gives the
   * "light" one; and the dark stylesheet is the light one with the media
   * block inserted after the light palette, so the two differ.
   */
  lemma {:induction false} ThemeVariants(theme: string)
    ensures HasDarkBlock(theme) ==> ThemeCSS(theme) == ThemeCSS("dark") == ThemeCSS("auto")
    ensures !HasDarkBlock(theme) ==> ThemeCSS(theme) == ThemeCSS("light")
    ensures ThemeCSS("dark") ==
      ThemeCSS("light")[..MediaOffset()] + DarkMedia + ThemeCSS("light")[MediaOffset()..]
    ensures ThemeCSS("dark") != ThemeCSS("light")
  {
    var light := ThemeCSS("light");
    MiddleStartsTail(Opening(), "", Closing());
    assert light[..MediaOffset()] == Opening();
  }

  /** The text of the toggle script after its opening comment marker. */
  const ToggleScriptBody :=
    @"Theme toggle functionality
const themeToggle = document.getElementById('theme-toggle');
const html = document.documentElement;

// Get saved theme or default to 'auto'
const savedTheme = localStorage.getItem('theme') || 'auto';

function setTheme(theme) {
  if (theme === 'auto') {
    html.removeAttribute('data-theme');
  } else {
    html.setAttribute('data-theme', theme);
  }
  localStorage.setItem('theme', theme);
}

// Set initial theme
setTheme(savedTheme);

// Theme toggle button click
if (themeToggle) {
  themeToggle.addEventListener('click', () => {
    const currentTheme = localStorage.getItem('theme') || 'auto';
    const newTheme = currentTheme === 'light' ? 'dark' : 'light';
    setTheme(newTheme);
  });
}

// Listen for system theme changes
window.matchMedia('(prefers-color-scheme: dark)').addEventListener('change', (e) => {
  if (localStorage.getItem('theme') === 'auto') {
    // Trigger re-render of auto theme
    html.removeAttribute('data-theme');
  }
});"

  /** `generateThemeToggleScript()`: a fixed script that takes no input. */
  function ThemeToggleScript(): (r: string)
    ensures IsPrefix("// ", r)
  {
    "// " + ToggleScriptBody
  }
}
