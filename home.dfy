/** The page (pages/index.tsx): the template catalogue, the page record
    `AppState`, its four handlers and the deferred completion of a generation.

    The completion callback closes over the `state` value of the render in
    which Generate ran, so it writes back that snapshot, not the live record.
    The model keeps one snapshot per scheduled completion in a queue; the
    completions all wait the same fixed delay, so they fire in the order they
    were scheduled, and an explicit `Complete` event stands for the timer. */
module Home {
  import opened Text
  import opened CodePreview

  // ---------------------------------------------------------------------------
  // Template catalogue

  /** A catalogue entry; its display icon is left out. */
  datatype Template = Template(id: string, name: string, description: string, tags: seq<string>)

  /** The catalogue's ids, in display order. */
  const TemplateIds := ["nextjs", "react", "vue", "express", "mobile"]

  function Ids(ts: seq<Template>): (ids: seq<string>)
    ensures |ids| == |ts|
    ensures forall i :: 0 <= i < |ts| ==> ids[i] == ts[i].id
  {
    seq(|ts|, i requires 0 <= i < |ts| => ts[i].id)
  }

  /** The fixed catalogue, in display order. */
  function Templates(): (ts: seq<Template>)
    ensures Ids(ts) == TemplateIds
  {
    [ Template("nextjs", "Next.js", "Full-stack React framework with built-in SSR and API routes",
        ["React", "SSR", "Full-stack"]),
      Template("react", "React", "UI library for building interactive user interfaces",
        ["Frontend", "SPA"]),
      Template("vue", "Vue.js", "Progressive framework for building user interfaces",
        ["Frontend", "SPA"]),
      Template("express", "Express.js", "Fast, unopinionated, minimalist web framework for Node.js",
        ["Backend", "API", "Node.js"]),
      Template("mobile", "React Native", "Create native apps for Android and iOS using React",
        ["Mobile", "Cross-platform"]) ]
  }

  /** The catalogue ids are distinct and non-empty. */
  lemma TemplateIdsDistinct()
    ensures forall i, j :: 0 <= i < j < |TemplateIds| ==> TemplateIds[i] != TemplateIds[j]
    ensures forall i :: 0 <= i < |TemplateIds| ==> TemplateIds[i] != ""
  {
    var ids := TemplateIds;
    assert ids[0][0] == 'n' && ids[1][0] == 'r' && ids[2][0] == 'v';
    assert ids[3][0] == 'e' && ids[4][0] == 'm';
  }

  // ---------------------------------------------------------------------------
  // The page record

  datatype AppState = AppState(
    prompt: string,
    selectedTemplate: Option<string>,
    isGenerating: bool,
    generatedCode: Option<FileMap>,
    previewMode: Mode)

  const InitialState := AppState("", None, false, None, Code)

  /** JavaScript truthiness of a `string | null`: neither null nor empty. */
  predicate Truthy(t: Option<string>) {
    t.Some? && t.value != ""
  }

  /** The guard of `handleGenerateCode`: it returns at once unless this holds.
      Past the guard, the template literal embeds the template id, never `null`. */
  predicate CanGenerate(s: AppState)
    ensures CanGenerate(s) ==> s.selectedTemplate.Some? && TemplateText(s.selectedTemplate) == s.selectedTemplate.value
  {
    s.prompt != "" && Truthy(s.selectedTemplate)
  }

  /** The Generate button is enabled when its `disabled` expression is false;
      a click on an enabled button always passes the handler's guard. */
  predicate ButtonEnabled(s: AppState)
    ensures ButtonEnabled(s) ==> CanGenerate(s) && !s.isGenerating
  {
    !(s.prompt == "" || !Truthy(s.selectedTemplate) || s.isGenerating)
  }

  /** `${t}` of a `string | null` inside a template literal. */
  function TemplateText(t: Option<string>): string {
    match t
    case None => "null"
    case Some(id) => id
  }

  // ---------------------------------------------------------------------------
  // The mock generation result

  /** The first five lines of the mock `index.js`, none of which depends on the inputs. */
  const IndexJsHead := Join(IndexJsHeadLines, '\n')

  const IndexJsHeadLines := ["import React from 'react';", "", "export default function App() {", "  return (", "    <div>"]

  /** The mock `index.js`, embedding the prompt and the template id after a
      fixed head of five lines. */
  function MockIndexJs(prompt: string, template: string): (r: string)
    ensures IndexJsHead + "\n" <= r
  {
    IndexJsHead + "\n" +
    ("      <h1>Generated from prompt: " + prompt + "</h1>\n      <p>Using template: " + template +
     "</p>\n    </div>\n  );\n}")
  }

  /** The mock `package.json`; it is the same for every generation. */
  const MockPackageJson :=
    "{\n  \"name\": \"generated-app\",\n  \"version\": \"1.0.0\",\n" +
    "  \"description\": \"Generated from FireCrawl App Generator\",\n" +
    "  \"scripts\": {\n    \"start\": \"react-scripts start\",\n    \"build\": \"react-scripts build\"\n  },\n" +
    "  \"dependencies\": {\n    \"react\": \"^18.2.0\",\n    \"react-dom\": \"^18.2.0\"\n  }\n}"

  /** `mockCode`: two files, `index.js` then `package.json`. */
  function MockCode(prompt: string, template: string): (code: FileMap)
    ensures Keys(code) == ["index.js", "package.json"]
    ensures DistinctKeys(code)
  {
    [("index.js", MockIndexJs(prompt, template)), ("package.json", MockPackageJson)]
  }

  /** The mock `index.js` mentions both the prompt and the template id. */
  lemma MockIndexJsMentionsInputs(prompt: string, template: string)
    ensures Contains(MockIndexJs(prompt, template), prompt)
    ensures Contains(MockIndexJs(prompt, template), template)
  {
    var line6 := "      <h1>Generated from prompt: " + prompt;
    var upToTemplate := line6 + "</h1>\n      <p>Using template: " + template;
    var tail := upToTemplate + "</p>\n    </div>\n  );\n}";
    assert MockIndexJs(prompt, template) == IndexJsHead + "\n" + tail;
    ContainsEnd("      <h1>Generated from prompt: ", prompt);
    ContainsExtend(line6, "</h1>\n      <p>Using template: ", prompt);
    ContainsExtend(line6 + "</h1>\n      <p>Using template: ", template, prompt);
    ContainsEnd(line6 + "</h1>\n      <p>Using template: ", template);
    ContainsExtend(upToTemplate, "</p>\n    </div>\n  );\n}", prompt);
    ContainsExtend(upToTemplate, "</p>\n    </div>\n  );\n}", template);
    ContainsExtend(IndexJsHead + "\n", tail, prompt);
    ContainsExtend(IndexJsHead + "\n", tail, template);
  }

  /** The preview of the mock `index.js` never reaches the line with the
      prompt: it is the same five lines for every prompt and template. */
  lemma MockIndexJsPreview(prompt: string, template: string)
    ensures Snippet(MockIndexJs(prompt, template)) == IndexJsHead
  {
    SnippetOfLines(IndexJsHeadLines, "      <h1>Generated from prompt: " + prompt +
      "</h1>\n      <p>Using template: " + template + "</p>\n    </div>\n  );\n}");
  }

  /** Right after the first generation the viewer mounts on `index.js`, so
      preview mode shows the same five lines and the ellipsis for every prompt. */
  lemma MockCodeFirstPreview(prompt: string, template: string)
    ensures var code := MockCode(prompt, template);
      InitialActiveFile(code) == "index.js" &&
      PreviewText(code, InitialActiveFile(code)) == IndexJsHead + Ellipsis
  {
    var indexJs := MockIndexJs(prompt, template);
    assert |indexJs| > 0;
    FirstPreviewOf(indexJs, MockPackageJson);
    MockIndexJsPreview(prompt, template);
  }

  lemma FirstPreviewOf(indexJs: string, packageJson: string)
    requires indexJs != ""
    ensures var code := [("index.js", indexJs), ("package.json", packageJson)];
      InitialActiveFile(code) == "index.js" &&
      PreviewText(code, "index.js") == Snippet(indexJs) + Ellipsis
  {
    var code := [("index.js", indexJs), ("package.json", packageJson)];
    assert Lookup(code, "index.js") == Some(indexJs);
  }

  /** Code mode over the mock result: a folder-icon JavaScript tab for
      `index.js`, then a file-icon JSON tab for `package.json`. */
  lemma MockCodeTabs(prompt: string, template: string)
    ensures Tabs(MockCode(prompt, template)) == [
      Tab("index.js", FolderIcon, "javascript", MockIndexJs(prompt, template)),
      Tab("package.json", FileIcon, "json", MockPackageJson)]
  {
    MockTabsOf(MockIndexJs(prompt, template), MockPackageJson);
  }

  lemma MockTabsOf(indexJs: string, packageJson: string)
    ensures Tabs([("index.js", indexJs), ("package.json", packageJson)]) == [
      Tab("index.js", FolderIcon, "javascript", indexJs),
      Tab("package.json", FileIcon, "json", packageJson)]
  {
    MockFileNames();
    var tabs := Tabs([("index.js", indexJs), ("package.json", packageJson)]);
    assert tabs[0] == Tab("index.js", FolderIcon, "javascript", indexJs);
    assert tabs[1] == Tab("package.json", FileIcon, "json", packageJson);
  }

  lemma MockFileNames()
    ensures TabIcon("index.js") == FolderIcon && Language("index.js") == "javascript"
    ensures TabIcon("package.json") == FileIcon && Language("package.json") == "json"
  {
    assert !EndsWith("index.js", ".json") && EndsWith("index.js", ".js");
    assert EndsWith("package.json", ".json");
    assert !EndsWith("package.json", ".js") && !EndsWith("package.json", ".jsx");
    assert !EndsWith("package.json", ".ts") && !EndsWith("package.json", ".tsx");
    assert !EndsWith("package.json", ".css") && !EndsWith("package.json", ".html");
  }

  // ---------------------------------------------------------------------------
  // Handlers, as functions from the record before to the record after

  /** `handlePromptChange(value)`: sets the prompt and no other field. */
  function PromptChanged(s: AppState, value: string): (r: AppState)
    ensures r.prompt == value
    ensures r.(prompt := s.prompt) == s
  {
    s.(prompt := value)
  }

  /** `handleTemplateSelect(templateId)`: selects the template and changes no other field. */
  function TemplateSelected(s: AppState, templateId: string): (r: AppState)
    ensures r.selectedTemplate == Some(templateId)
    ensures r.(selectedTemplate := s.selectedTemplate) == s
  {
    s.(selectedTemplate := Some(templateId))
  }

  /** `togglePreviewMode()`: flips the mode and changes no other field. */
  function Toggled(s: AppState): (r: AppState)
    ensures r.previewMode != s.previewMode
    ensures r.(previewMode := s.previewMode) == s
  {
    s.(previewMode := if s.previewMode == Code then Preview else Code)
  }

  /** The record `handleGenerateCode` installs once its guard is passed: only
      `isGenerating` changes, and the button is disabled. */
  function Submitted(s: AppState): (r: AppState)
    ensures r.isGenerating && !ButtonEnabled(r)
    ensures r.(isGenerating := s.isGenerating) == s
  {
    s.(isGenerating := true)
  }

  /** The record the deferred completion installs: the snapshot taken when
      Generate ran, no longer generating, with the mock files built from the
      snapshot's prompt and template. */
  function Completed(snapshot: AppState): (r: AppState)
    ensures !r.isGenerating && r.generatedCode.Some?
    ensures Keys(r.generatedCode.value) == ["index.js", "package.json"]
    ensures r.(isGenerating := snapshot.isGenerating, generatedCode := snapshot.generatedCode) == snapshot
  {
    snapshot.(
      isGenerating := false,
      generatedCode := Some(MockCode(snapshot.prompt, TemplateText(snapshot.selectedTemplate))))
  }

  // ---------------------------------------------------------------------------
  // The page as a whole: the record and the completions still to fire

  datatype Event = PromptChange(value: string) | TemplateSelect(templateId: string)
                 | Generate | TogglePreview | Complete

  /** The record and the snapshots of the scheduled completions, oldest first. */
  datatype Page = Page(state: AppState, pending: seq<AppState>)

  const InitialPage := Page(InitialState, [])

  /** One event. A completion with nothing scheduled cannot happen; it is a no-op here.
      Only Generate and completions touch the schedule, `isGenerating` and the
      generated code. */
  function Step(p: Page, e: Event): (q: Page)
    ensures !e.Generate? && !e.Complete? ==>
      q.pending == p.pending && q.state.isGenerating == p.state.isGenerating &&
      q.state.generatedCode == p.state.generatedCode
  {
    match e
    case PromptChange(v) => p.(state := PromptChanged(p.state, v))
    case TemplateSelect(id) => p.(state := TemplateSelected(p.state, id))
    case TogglePreview => p.(state := Toggled(p.state))
    case Generate =>
      if CanGenerate(p.state) then Page(Submitted(p.state), p.pending + [p.state]) else p
    case Complete =>
      if p.pending == [] then p else Page(Completed(p.pending[0]), p.pending[1..])
  }

  /** A sequence of events, first to last. */
  function Run(p: Page, events: seq<Event>): Page
    decreases |events|
  {
    if events == [] then p else Run(Step(p, events[0]), events[1..])
  }

  /** What holds of every page reachable from the initial one: each scheduled
      snapshot passed the guard, the page is generating only while some
      completion is scheduled, and generated code is always the mock result
      for some record that passed the guard. */
  ghost predicate Valid(p: Page) {
    && (forall i :: 0 <= i < |p.pending| ==> CanGenerate(p.pending[i]))
    && (p.state.isGenerating ==> p.pending != [])
    && (p.state.generatedCode.Some? ==> GeneratedFrom(p.state.generatedCode.value))
  }

  /** `code` is the mock result for some record that passed the guard. */
  ghost predicate GeneratedFrom(code: FileMap) {
    exists s :: CanGenerate(s) && code == MockCode(s.prompt, s.selectedTemplate.value)
  }

  lemma StepValid(p: Page, e: Event)
    requires Valid(p)
    ensures Valid(Step(p, e))
  {
    if e.Complete? && p.pending != [] {
      var s := p.pending[0];
      assert CanGenerate(s);
      assert Step(p, e).state.generatedCode.value == MockCode(s.prompt, s.selectedTemplate.value);
    }
  }

  lemma {:induction false} RunValid(p: Page, events: seq<Event>)
    requires Valid(p)
    ensures Valid(Run(p, events))
    decreases |events|
  {
    if events != [] {
      StepValid(p, events[0]);
      RunValid(Step(p, events[0]), events[1..]);
    }
  }

  /** Every page reached from the initial page by any events is valid. */
  lemma ReachableValid(events: seq<Event>)
    ensures Valid(Run(InitialPage, events))
  {
    RunValid(InitialPage, events);
  }

  // ---------------------------------------------------------------------------
  // Properties of the handlers

  /** Generate changes nothing, and schedules nothing, exactly when the prompt
      is empty or no template (or the empty one) is selected. */
  lemma GenerateGuard(p: Page)
    ensures Step(p, Generate) == p <==> !CanGenerate(p.state)
  {
    if CanGenerate(p.state) {
      assert |Step(p, Generate).pending| == |p.pending| + 1;
    }
  }

  /** A Generate that passes the guard sets `isGenerating` and nothing else,
      and schedules one completion holding the record as it was. */
  lemma GenerateSchedules(p: Page)
    requires CanGenerate(p.state)
    ensures Step(p, Generate).state.isGenerating
    ensures Step(p, Generate).state.(isGenerating := p.state.isGenerating) == p.state
    ensures Step(p, Generate).pending == p.pending + [p.state]
  {
  }

  /** A completion clears `isGenerating`, installs exactly `index.js` and
      `package.json`, and puts back the prompt, template and mode of its snapshot. */
  lemma CompleteInstalls(p: Page)
    requires p.pending != []
    ensures var q := Step(p, Complete);
      && !q.state.isGenerating
      && q.state.generatedCode.Some?
      && Keys(q.state.generatedCode.value) == ["index.js", "package.json"]
      && q.state.prompt == p.pending[0].prompt
      && q.state.selectedTemplate == p.pending[0].selectedTemplate
      && q.state.previewMode == p.pending[0].previewMode
      && q.pending == p.pending[1..]
  {
  }

  /** The installed `index.js` mentions the prompt and the template id of the snapshot. */
  lemma CompletedMentionsSnapshot(snapshot: AppState)
    requires CanGenerate(snapshot)
    ensures var code := Completed(snapshot).generatedCode.value;
      Lookup(code, "index.js").Some? &&
      Contains(Lookup(code, "index.js").value, snapshot.prompt) &&
      Contains(Lookup(code, "index.js").value, snapshot.selectedTemplate.value)
  {
    MockIndexJsMentionsInputs(snapshot.prompt, snapshot.selectedTemplate.value);
  }

  /** Toggling twice is the identity, and a toggle switches the viewer between
      its preview pane and its tabs. */
  lemma ToggleFlips(s: AppState, code: FileMap, activeFile: string)
    ensures Toggled(Toggled(s)) == s
    ensures Display(code, Toggled(s).previewMode, activeFile).PreviewPane? <==>
      !Display(code, s.previewMode, activeFile).PreviewPane?
  {
  }

  /** The button is enabled exactly when Generate would pass its guard and no
      generation is running. */
  lemma ButtonEnabledIff(s: AppState)
    ensures ButtonEnabled(s) <==> CanGenerate(s) && !s.isGenerating
  {
  }

  /** Events that are not completions. */
  predicate NoCompletion(events: seq<Event>) {
    forall i :: 0 <= i < |events| ==> events[i] != Complete
  }

  /** Without completions the scheduled snapshots are only ever added to. */
  lemma {:induction false} PendingGrows(p: Page, events: seq<Event>)
    requires NoCompletion(events)
    ensures p.pending <= Run(p, events).pending
    decreases |events|
  {
    if events != [] {
      PendingGrows(Step(p, events[0]), events[1..]);
    }
  }

  /** Nothing but a completion installs generated code: from a page without
      any, it stays absent until some completion fires. */
  lemma {:induction false} NoCodeBeforeCompletion(p: Page, events: seq<Event>)
    requires p.state.generatedCode.None?
    requires NoCompletion(events)
    ensures Run(p, events).state.generatedCode.None?
    decreases |events|
  {
    if events != [] {
      NoCodeBeforeCompletion(Step(p, events[0]), events[1..]);
    }
  }

  /** Once generating, the page stays generating through any edits, template
      picks, mode toggles or further Generates until a completion fires. */
  lemma {:induction false} GeneratingPersists(p: Page, events: seq<Event>)
    requires p.state.isGenerating
    requires NoCompletion(events)
    ensures Run(p, events).state.isGenerating
    decreases |events|
  {
    if events != [] {
      GeneratingPersists(Step(p, events[0]), events[1..]);
    }
  }

  /** A generation from an idle page, followed by any edits, template picks,
      mode toggles or further generations, completes to the record as it was
      at submission: the picks and toggles made while it was pending are undone. */
  lemma {:induction false} CompletionRestoresSnapshot(p: Page, events: seq<Event>)
    requires p.pending == [] && CanGenerate(p.state)
    requires NoCompletion(events)
    ensures Run(p, [Generate] + events + [Complete]).state == Completed(p.state)
  {
    var q := Run(Step(p, Generate), events);
    PendingGrows(Step(p, Generate), events);
    RunAppend(p, [Generate] + events, [Complete]);
    RunAppend(p, [Generate], events);
  }

  lemma {:induction false} RunAppend(p: Page, xs: seq<Event>, ys: seq<Event>)
    ensures Run(p, xs + ys) == Run(Run(p, xs), ys)
    decreases |xs|
  {
    if xs == [] {
      assert xs + ys == ys;
    }
    if xs != [] {
      assert (xs + ys)[0] == xs[0];
      assert (xs + ys)[1..] == xs[1..] + ys;
      RunAppend(Step(p, xs[0]), xs[1..], ys);
      assert Run(p, xs + ys) == Run(Step(p, xs[0]), xs[1..] + ys);
    }
  }

  /** `n` completion events. */
  function Completions(n: nat): (es: seq<Event>)
    ensures |es| == n
    ensures forall i :: 0 <= i < n ==> es[i] == Complete
  {
    if n == 0 then [] else [Complete] + Completions(n - 1)
  }

  /** When every scheduled completion fires, the last one scheduled wins. */
  lemma {:induction false} LastCompletionWins(p: Page)
    requires p.pending != []
    ensures Run(p, Completions(|p.pending|)) ==
      Page(Completed(p.pending[|p.pending| - 1]), [])
    decreases |p.pending|
  {
    var q := Step(p, Complete);
    assert Completions(|p.pending|)[1..] == Completions(|p.pending| - 1);
    if |p.pending| > 1 {
      LastCompletionWins(q);
    }
  }

  /** Two Generates before the first completion: the first completion already
      clears `isGenerating` while the second is still scheduled, and the second
      completion's record is the final one. */
  lemma OverlappingGenerations()
    ensures var p := Run(InitialPage, [TemplateSelect("react"), PromptChange("todo app"),
                                       Generate, TemplateSelect("vue"), Generate, Complete]);
      !p.state.isGenerating && |p.pending| == 1 && p.state.selectedTemplate == Some("react")
    ensures Run(InitialPage, [TemplateSelect("react"), PromptChange("todo app"), Generate,
                              TemplateSelect("vue"), Generate, Complete, Complete]).state.selectedTemplate
            == Some("vue")
  {
  }

  /** Select "react", type "todo app", Generate: generating at once, and after
      the completion `index.js` mentions "todo app" and "react". */
  lemma TodoAppScenario()
    ensures Run(InitialPage, [TemplateSelect("react"), PromptChange("todo app"), Generate]).state.isGenerating
    ensures var code := Run(InitialPage, [TemplateSelect("react"), PromptChange("todo app"),
                                          Generate, Complete]).state.generatedCode;
      code.Some? && Lookup(code.value, "index.js").Some? &&
      Contains(Lookup(code.value, "index.js").value, "todo app") &&
      Contains(Lookup(code.value, "index.js").value, "react")
  {
    var p1 := Step(InitialPage, TemplateSelect("react"));
    var p2 := Step(p1, PromptChange("todo app"));
    var p3 := Step(p2, Generate);
    var submitted := AppState("todo app", Some("react"), false, None, Code);
    assert p2 == Page(submitted, []);
    assert p3 == Page(Submitted(submitted), [submitted]);
    assert Run(InitialPage, [TemplateSelect("react"), PromptChange("todo app"), Generate]) == p3;
    assert Run(InitialPage, [TemplateSelect("react"), PromptChange("todo app"), Generate, Complete])
      == Step(p3, Complete);
    CompletedMentionsSnapshot(submitted);
  }

  // ---------------------------------------------------------------------------
  // The page component

  /** The mounted page: the `useState` record and the scheduled completions. */
  class HomePage {
    var state: AppState
    var pending: seq<AppState>

    function Current(): Page
      reads this
    {
      Page(state, pending)
    }

    constructor ()
      ensures Current() == InitialPage && Valid(Current())
    {
      state := InitialState;
      pending := [];
    }

    method HandlePromptChange(value: string)
      requires Valid(Current())
      modifies this
      ensures Valid(Current())
      ensures Current() == Step(old(Current()), PromptChange(value))
      ensures state == PromptChanged(old(state), value) && pending == old(pending)
    {
      state := PromptChanged(state, value);
    }

    method HandleTemplateSelect(templateId: string)
      requires Valid(Current())
      modifies this
      ensures Valid(Current())
      ensures Current() == Step(old(Current()), TemplateSelect(templateId))
      ensures state == TemplateSelected(old(state), templateId) && pending == old(pending)
    {
      state := TemplateSelected(state, templateId);
    }

    /** Guarded; when the guard passes, marks the page as generating and
        schedules a completion over the record as it was. */
    method HandleGenerateCode()
      requires Valid(Current())
      modifies this
      ensures Valid(Current())
      ensures Current() == Step(old(Current()), Generate)
      ensures !CanGenerate(old(state)) ==> state == old(state) && pending == old(pending)
      ensures CanGenerate(old(state)) ==>
        state == Submitted(old(state)) && pending == old(pending) + [old(state)]
    {
      if !(state.prompt != "" && Truthy(state.selectedTemplate)) {
        return;
      }
      pending := pending + [state];
      state := Submitted(state);
    }

    method TogglePreviewMode()
      requires Valid(Current())
      modifies this
      ensures Valid(Current())
      ensures Current() == Step(old(Current()), TogglePreview)
      ensures state == Toggled(old(state)) && pending == old(pending)
    {
      state := Toggled(state);
    }

    /** The earliest scheduled completion fires. */
    method Complete()
      requires Valid(Current())
      requires pending != []
      modifies this
      ensures Valid(Current())
      ensures Current() == Step(old(Current()), Event.Complete)
      ensures state == Completed(old(pending)[0]) && pending == old(pending)[1..]
    {
      var snapshot := pending[0];
      pending := pending[1..];
      state := Completed(snapshot);
    }
  }
}
