/** `POST /api/export` (server/routes.ts): a chain's effects rendered as a plain
    text sheet, as a step-by-step recipe for a named DAW, or returned as they are. */
module Export {
  import opened Schema
  import opened Text
  import Storage

  /** `"=".repeat(50)`, the rule under both titles. */
  function Rule(): string { Repeat('=', 50) }

  /** One rendered parameter: `${prefix}${key}: ${value}\n`. `render` is `${value}`. */
  function ParamLine(prefix: string, p: (string, Json), render: Json -> string): string {
    Line(prefix + p.0 + ": " + render(p.1))
  }

  /** The lines of `Object.entries(params).forEach(...)`, one per parameter, in order. */
  function ParamLines(prefix: string, ps: Params, render: Json -> string): string {
    if ps == [] then "" else ParamLines(prefix, ps[..|ps| - 1], render) + ParamLine(prefix, ps[|ps| - 1], render)
  }

  // The text sheet.

  function TextTitle(): string { Line("VOCAL PROCESSING CHAIN") + Line(Rule()) + Line("") }

  function TextHeading(k: nat, e: Effect): string {
    Line(NatToString(k) + ". " + e.name + " (" + e.effectType + ")")
  }

  function TextStatus(e: Effect): string {
    Line("   " + (if e.bypassed then "[BYPASSED]" else "[ACTIVE]"))
  }

  const TextParamsLabel := Line("   Parameters:")
  const TextBullet := "   - "

  /** The lines before an effect's parameters. */
  function TextOpening(k: nat, e: Effect): string {
    TextHeading(k, e) + TextStatus(e) + TextParamsLabel
  }

  /** The block of the effect numbered `k`. */
  function TextBlock(k: nat, e: Effect, render: Json -> string): string {
    TextOpening(k, e) + ParamLines(TextBullet, e.parameters, render) + Line("")
  }

  /** The blocks of `es`, numbered from 1. */
  function TextBlocks(es: seq<Effect>, render: Json -> string): string {
    if es == [] then "" else TextBlocks(es[..|es| - 1], render) + TextBlock(|es|, es[|es| - 1], render)
  }

  /** The whole text sheet. */
  function TextSheet(es: seq<Effect>, render: Json -> string): string {
    TextTitle() + TextBlocks(es, render)
  }

  // The DAW recipe.

  function RecipeTitle(daw: string): string {
    Line(ToUpper(daw) + " VOCAL CHAIN RECIPE") + Line(Rule()) + Line("")
    + Line("Follow these steps in " + daw + ":") + Line("")
  }

  function RecipeStep(k: nat, e: Effect): string {
    Line("Step " + NatToString(k) + ": Add " + e.name)
  }

  function RecipePlugin(e: Effect): string {
    Line("Plugin suggestion: [Stock " + e.effectType + " plugin]")
  }

  function RecipeOpening(k: nat, e: Effect): string {
    RecipeStep(k, e) + RecipePlugin(e) + RecipeSettingsLabel
  }

  const RecipeSettingsLabel := Line("Settings:")
  const RecipeBullet := "  \U{2022} "

  function RecipeBlock(k: nat, e: Effect, render: Json -> string): string {
    RecipeOpening(k, e) + ParamLines(RecipeBullet, e.parameters, render) + Line("")
  }

  function RecipeBlocks(es: seq<Effect>, render: Json -> string): string {
    if es == [] then "" else RecipeBlocks(es[..|es| - 1], render) + RecipeBlock(|es|, es[|es| - 1], render)
  }

  /** The whole recipe for `daw`. */
  function Recipe(daw: string, es: seq<Effect>, render: Json -> string): string {
    RecipeTitle(daw) + RecipeBlocks(es, render)
  }

  /** `+=` three times is `+=` of the three parts together. */
  lemma AppendThree(t: string, a: string, b: string, c: string)
    ensures t + a + b + c == t + (a + b + c)
  {
  }

  /** The sheet of one more effect is the sheet so far followed by its block. */
  lemma TextSheetNext(es: seq<Effect>, i: nat, render: Json -> string)
    requires i < |es|
    ensures TextSheet(es[..i + 1], render) == TextSheet(es[..i], render) + TextBlock(i + 1, es[i], render)
  {
    assert es[..i + 1][..i] == es[..i];
  }

  lemma RecipeNext(daw: string, es: seq<Effect>, i: nat, render: Json -> string)
    requires i < |es|
    ensures Recipe(daw, es[..i + 1], render) == Recipe(daw, es[..i], render) + RecipeBlock(i + 1, es[i], render)
  {
    assert es[..i + 1][..i] == es[..i];
  }

  /** Appends the parameter lines of `ps` to `text`, one `+=` per parameter. */
  method AppendParams(text: string, prefix: string, ps: Params, render: Json -> string) returns (r: string)
    ensures r == text + ParamLines(prefix, ps, render)
  {
    r := text;
    var j := 0;
    while j < |ps|
      invariant 0 <= j <= |ps|
      invariant r == text + ParamLines(prefix, ps[..j], render)
    {
      r := r + ParamLine(prefix, ps[j], render);
      j := j + 1;
      assert ps[..j][..j - 1] == ps[..j - 1];
    }
    assert ps[..j] == ps;
  }

  /** The `format === "text"` branch: builds the sheet line by line. */
  method RenderText(es: seq<Effect>, render: Json -> string) returns (text: string)
    ensures text == TextSheet(es, render)
  {
    text := Line("VOCAL PROCESSING CHAIN");
    text := text + Line(Rule()) + Line("");
    var i := 0;
    while i < |es|
      invariant 0 <= i <= |es|
      invariant text == TextSheet(es[..i], render)
    {
      ghost var before := text;
      var e := es[i];
      text := text + TextHeading(i + 1, e);
      text := text + TextStatus(e);
      text := text + TextParamsLabel;
      AppendThree(before, TextHeading(i + 1, e), TextStatus(e), TextParamsLabel);
      text := AppendParams(text, TextBullet, e.parameters, render);
      text := text + Line("");
      AppendThree(before, TextOpening(i + 1, e), ParamLines(TextBullet, e.parameters, render), Line(""));
      TextSheetNext(es, i, render);
      i := i + 1;
    }
    assert es[..i] == es;
  }

  /** The `format === "daw"` branch: builds the recipe line by line. */
  method RenderRecipe(daw: string, es: seq<Effect>, render: Json -> string) returns (recipe: string)
    ensures recipe == Recipe(daw, es, render)
  {
    recipe := Line(ToUpper(daw) + " VOCAL CHAIN RECIPE");
    recipe := recipe + Line(Rule()) + Line("");
    recipe := recipe + Line("Follow these steps in " + daw + ":") + Line("");
    var i := 0;
    while i < |es|
      invariant 0 <= i <= |es|
      invariant recipe == Recipe(daw, es[..i], render)
    {
      ghost var before := recipe;
      var e := es[i];
      var step := RecipeStep(i + 1, e);
      var plugin := RecipePlugin(e);
      recipe := recipe + step;
      recipe := recipe + plugin;
      recipe := recipe + RecipeSettingsLabel;
      AppendThree(before, step, plugin, RecipeSettingsLabel);
      recipe := AppendParams(recipe, RecipeBullet, e.parameters, render);
      recipe := recipe + Line("");
      AppendThree(before, RecipeOpening(i + 1, e), ParamLines(RecipeBullet, e.parameters, render), Line(""));
      RecipeNext(daw, es, i, render);
      i := i + 1;
    }
    assert es[..i] == es;
  }

  // Line counts: every parameter gets a line of its own.

  /** The fields an effect shows inside a line hold no line break. */
  predicate SingleLineFields(e: Effect, render: Json -> string) {
    && OneLine(e.name) && OneLine(e.effectType)
    && forall p :: p in e.parameters ==> OneLine(p.0) && OneLine(render(p.1))
  }

  /** The lines a sheet or a recipe gives each effect: four of its own and one per parameter. */
  function BlockLines(es: seq<Effect>): nat {
    if es == [] then 0 else BlockLines(es[..|es| - 1]) + 4 + |es[|es| - 1].parameters|
  }

  lemma OneLineAppend(a: string, b: string)
    requires OneLine(a) && OneLine(b)
    ensures OneLine(a + b)
  {
    NoLinesOneLine(a);
    NoLinesOneLine(b);
    LinesAppend(a, b);
    NoLinesOneLine(a + b);
  }

  lemma {:induction false} ParamLinesCount(prefix: string, ps: Params, render: Json -> string)
    requires OneLine(prefix)
    requires forall p :: p in ps ==> OneLine(p.0) && OneLine(render(p.1))
    ensures Lines(ParamLines(prefix, ps, render)) == |ps|
  {
    if ps != [] {
      var front, p := ps[..|ps| - 1], ps[|ps| - 1];
      assert forall q :: q in front ==> q in ps;
      ParamLinesCount(prefix, front, render);
      assert p in ps;
      OneLineAppend(prefix, p.0);
      OneLineAppend(prefix + p.0, ": ");
      OneLineAppend(prefix + p.0 + ": ", render(p.1));
      LineLines(prefix + p.0 + ": " + render(p.1));
      LinesAppend(ParamLines(prefix, front, render), ParamLine(prefix, p, render));
    }
  }

  /** Four lines of an opening and a closing, one per parameter between them. */
  lemma BlockCount(a: string, b: string, c: string, d: string, n: nat)
    requires Lines(a) == 1 && Lines(b) == 1 && Lines(c) == 1 && Lines(d) == n
    ensures Lines(a + b + c + d + Line("")) == 4 + n
  {
    LineLines("");
    LinesAppend(a, b);
    LinesAppend(a + b, c);
    LinesAppend(a + b + c, d);
    LinesAppend(a + b + c + d, Line(""));
  }

  lemma TextBlockLines(k: nat, e: Effect, render: Json -> string)
    requires SingleLineFields(e, render)
    ensures Lines(TextBlock(k, e, render)) == 4 + |e.parameters|
  {
    var n := NatToString(k);
    NoLinesOneLine(n);
    OneLineAppend(n, ". ");
    OneLineAppend(n + ". ", e.name);
    OneLineAppend(n + ". " + e.name, " (");
    OneLineAppend(n + ". " + e.name + " (", e.effectType);
    OneLineAppend(n + ". " + e.name + " (" + e.effectType, ")");
    LineLines(n + ". " + e.name + " (" + e.effectType + ")");
    var status := if e.bypassed then "[BYPASSED]" else "[ACTIVE]";
    OneLineAppend("   ", status);
    LineLines("   " + status);
    LineLines("   Parameters:");
    ParamLinesCount(TextBullet, e.parameters, render);
    BlockCount(TextHeading(k, e), TextStatus(e), TextParamsLabel, ParamLines(TextBullet, e.parameters, render),
               |e.parameters|);
  }

  lemma RecipeBlockLines(k: nat, e: Effect, render: Json -> string)
    requires SingleLineFields(e, render)
    ensures Lines(RecipeBlock(k, e, render)) == 4 + |e.parameters|
  {
    var n := NatToString(k);
    NoLinesOneLine(n);
    OneLineAppend("Step ", n);
    OneLineAppend("Step " + n, ": Add ");
    OneLineAppend("Step " + n + ": Add ", e.name);
    LineLines("Step " + n + ": Add " + e.name);
    OneLineAppend("Plugin suggestion: [Stock ", e.effectType);
    OneLineAppend("Plugin suggestion: [Stock " + e.effectType, " plugin]");
    LineLines("Plugin suggestion: [Stock " + e.effectType + " plugin]");
    LineLines("Settings:");
    ParamLinesCount(RecipeBullet, e.parameters, render);
    BlockCount(RecipeStep(k, e), RecipePlugin(e), RecipeSettingsLabel, ParamLines(RecipeBullet, e.parameters, render),
               |e.parameters|);
  }

  /** The title of the sheet is three lines. */
  lemma TextTitleLines()
    ensures Lines(TextTitle()) == 3
  {
    LineLines("VOCAL PROCESSING CHAIN");
    LineLines(Rule());
    LineLines("");
    LinesAppend(Line("VOCAL PROCESSING CHAIN"), Line(Rule()));
    LinesAppend(Line("VOCAL PROCESSING CHAIN") + Line(Rule()), Line(""));
  }

  /** The sheet has three title lines, then four lines per effect and one per parameter. */
  lemma {:induction false} TextSheetLines(es: seq<Effect>, render: Json -> string)
    requires forall e :: e in es ==> SingleLineFields(e, render)
    ensures Lines(TextSheet(es, render)) == 3 + BlockLines(es)
  {
    if es == [] {
      TextTitleLines();
      LinesAppend(TextTitle(), "");
      assert TextTitle() + "" == TextTitle();
    } else {
      var front, e := es[..|es| - 1], es[|es| - 1];
      assert forall x :: x in front ==> x in es;
      TextSheetLines(front, render);
      assert e in es;
      TextBlockLines(|es|, e, render);
      LinesAppend(TextTitle(), TextBlocks(front, render));
      LinesAppend(TextTitle(), TextBlocks(es, render));
      LinesAppend(TextBlocks(front, render), TextBlock(|es|, e, render));
    }
  }

  /** Upper-casing keeps a line a line. */
  lemma ToUpperOneLine(s: string)
    requires OneLine(s)
    ensures OneLine(ToUpper(s))
  {
  }

  /** The recipe has five title lines, then four lines per effect and one per parameter. */
  lemma {:induction false} RecipeLines(daw: string, es: seq<Effect>, render: Json -> string)
    requires OneLine(daw)
    requires forall e :: e in es ==> SingleLineFields(e, render)
    ensures Lines(Recipe(daw, es, render)) == 5 + BlockLines(es)
  {
    if es == [] {
      ToUpperOneLine(daw);
      OneLineAppend(ToUpper(daw), " VOCAL CHAIN RECIPE");
      OneLineAppend("Follow these steps in ", daw);
      OneLineAppend("Follow these steps in " + daw, ":");
      var a, b, c, d := Line(ToUpper(daw) + " VOCAL CHAIN RECIPE"), Line(Rule()), Line(""),
                        Line("Follow these steps in " + daw + ":");
      LineLines(ToUpper(daw) + " VOCAL CHAIN RECIPE");
      LineLines(Rule());
      LineLines("");
      LineLines("Follow these steps in " + daw + ":");
      LinesAppend(a, b);
      LinesAppend(a + b, c);
      LinesAppend(a + b + c, d);
      LinesAppend(a + b + c + d, c);
      LinesAppend(RecipeTitle(daw), "");
      assert RecipeTitle(daw) + "" == RecipeTitle(daw);
    } else {
      var front, e := es[..|es| - 1], es[|es| - 1];
      assert forall x :: x in front ==> x in es;
      RecipeLines(daw, front, render);
      assert e in es;
      RecipeBlockLines(|es|, e, render);
      LinesAppend(RecipeTitle(daw), RecipeBlocks(front, render));
      LinesAppend(RecipeTitle(daw), RecipeBlocks(es, render));
      LinesAppend(RecipeBlocks(front, render), RecipeBlock(|es|, e, render));
    }
  }

  /** The response body: a document with its file name, or the effects themselves. */
  datatype Exported = Document(content: string, filename: string) | Effects(effects: seq<Effect>)

  /** `format === "daw" && daw`: a missing or empty `daw` falls through. */
  predicate WantsRecipe(format: Option<string>, daw: Option<string>) {
    format == Some("daw") && daw.Some? && daw.value != ""
  }

  function TextFileName(now: nat): string { "vocal_chain_" + NatToString(now) + ".txt" }

  function RecipeFileName(daw: string, now: nat): string { daw + "_recipe_" + NatToString(now) + ".txt" }

  /** Exports at different times get different file names. */
  lemma TextFileNamesDiffer(m: nat, n: nat)
    requires m != n
    ensures TextFileName(m) != TextFileName(n)
  {
    var p := "vocal_chain_";
    if TextFileName(m) == TextFileName(n) {
      var s := TextFileName(m);
      assert |NatToString(m)| == |NatToString(n)|;
      assert NatToString(m) == s[|p|..|s| - 4] == NatToString(n);
      NatToStringInjective(m, n);
    }
  }

  lemma RecipeFileNamesDiffer(daw: string, m: nat, n: nat)
    requires m != n
    ensures RecipeFileName(daw, m) != RecipeFileName(daw, n)
  {
    var p := daw + "_recipe_";
    if RecipeFileName(daw, m) == RecipeFileName(daw, n) {
      var s := RecipeFileName(daw, m);
      assert |NatToString(m)| == |NatToString(n)|;
      assert NatToString(m) == s[|p|..|s| - 4] == NatToString(n);
      NatToStringInjective(m, n);
    }
  }

  /** The recipe opens with the DAW's name in upper case. */
  lemma RecipeOpensWithDaw(daw: string, es: seq<Effect>, render: Json -> string)
    ensures StartsWith(Recipe(daw, es, render), ToUpper(daw))
  {
    var a := ToUpper(daw);
    var title := a + " VOCAL CHAIN RECIPE";
    Concatenated(a, " VOCAL CHAIN RECIPE");
    PrefixKept(title, a, "\n");
    var s := Line(title);
    PrefixKept(s, a, Line(Rule()));
    s := s + Line(Rule());
    PrefixKept(s, a, Line(""));
    s := s + Line("");
    PrefixKept(s, a, Line("Follow these steps in " + daw + ":"));
    s := s + Line("Follow these steps in " + daw + ":");
    PrefixKept(s, a, Line(""));
    s := s + Line("");
    assert s == RecipeTitle(daw);
    PrefixKept(s, a, RecipeBlocks(es, render));
  }

  /** `POST /api/export`. `now` is `Date.now()`. */
  method ExportChain(store: Storage.MemStorage, chainId: Id, format: Option<string>, daw: Option<string>,
                     now: nat, render: Json -> string)
    returns (r: Exported)
    requires store.Valid()
    ensures var es := Storage.ChainEffects(store.effects, store.nextId, chainId);
      && (format == Some("text") ==> r == Document(TextSheet(es, render), TextFileName(now)))
      && (WantsRecipe(format, daw) ==> r == Document(Recipe(daw.value, es, render), RecipeFileName(daw.value, now)))
      && (format != Some("text") && !WantsRecipe(format, daw) ==> r == Effects(es))
  {
    var es := store.GetEffectsByChain(chainId);
    if format == Some("text") {
      var content := RenderText(es, render);
      r := Document(content, "vocal_chain_" + NatToString(now) + ".txt");
    } else if format == Some("daw") && daw.Some? && daw.value != "" {
      var content := RenderRecipe(daw.value, es, render);
      r := Document(content, daw.value + "_recipe_" + NatToString(now) + ".txt");
    } else {
      r := Effects(es);
    }
  }
}
